/** The record mappers of importers/localizer.py, the direct-load version of
    the Localizer import: subject.json and behavioural.json become Subject,
    Center, Device, Assessment, Scan, Questionnaire and answer records, and
    the FAM rows become genomic measures. Paths are lists of components
    below the subject directory. */
module Localizer {
  import opened Values
  import opened Ordering
  import JsonLocalizer

  const GENDER_MAP: map<string, string> := map["1" := "male", "2" := "female", "3" := "unknown"]

  const HANDEDNESS_MAP: map<string, string> := map[
    "Right handed" := "right", "Left handed" := "left",
    "Ambidextrous" := "ambidextrous", "Unknown" := "unknown"]

  const SCORE_TYPES: seq<string> :=
    ["language", "family", "schizophrenic", "dyslexic", "dyscalculic", "synaesthete"]

  const SEQ_TYPES: seq<string> :=
    ["localizer_long_complex", "localizer_long_easy", "localizer_short_complex", "localizer_short_easy"]

  /** The issue fields of the fMRI description, in the order the format
      string names them. */
  const FMRI_FIELDS: seq<string> := ["epi_problem", "sound_problem", "video_problem", "motor_error"]

  const NIFTI_SUFFIX: string := ".nii.gz"

  // ---------------------------------------------------------------------------
  // Subject, Center, Device, Assessment

  /** GENDER_MAP.get(sex, GENDER_MAP['3']). */
  function Gender(sex: Value): (g: string)
    ensures g == JsonLocalizer.Gender(sex)
  {
    if sex.Str? && sex.s in GENDER_MAP then GENDER_MAP[sex.s] else GENDER_MAP["3"]
  }

  /** HANDEDNESS_MAP.get(laterality, HANDEDNESS_MAP['Unknown']). */
  function Handedness(laterality: Value): (h: string)
    ensures h == JsonLocalizer.Handedness(laterality)
  {
    if laterality.Str? && laterality.s in HANDEDNESS_MAP then HANDEDNESS_MAP[laterality.s]
    else HANDEDNESS_MAP["Unknown"]
  }

  datatype SubjectData = SubjectData(identifier: Value, gender: string, handedness: string)
  datatype ScoreValue = ScoreValue(name: string, value: Value)
  datatype ImportedSubject = ImportedSubject(data: SubjectData, ageForAssessment: Value, scores: seq<ScoreValue>)

  /** The fields import_subject reads with `[]`, in reading order. */
  const SUBJECT_FIELDS: seq<string> := ["nip", "age", "sex", "laterality"]

  /** import_subject: the Subject record, the raw age, and one score entry per
      SCORE_TYPES name, None where subject.json lacks it. */
  method ImportSubject(info: Record) returns (r: Result<ImportedSubject>)
    ensures r.Ok? <==> forall k :: k in SUBJECT_FIELDS ==> k in info
    ensures r.Err? ==> r.error == KeyError(FirstMissing(SUBJECT_FIELDS, info))
    ensures r.Ok? ==>
      && r.value.data == SubjectData(info["nip"], Gender(info["sex"]), Handedness(info["laterality"]))
      && r.value.ageForAssessment == info["age"]
      && |r.value.scores| == |SCORE_TYPES|
      && forall i :: 0 <= i < |SCORE_TYPES| ==>
           r.value.scores[i] == ScoreValue(SCORE_TYPES[i], Get(info, SCORE_TYPES[i]))
  {
    if "nip" !in info { return Err(KeyError("nip")); }
    var identifier := info["nip"];
    if "age" !in info {
      FirstMissingAt(SUBJECT_FIELDS, info, 1);
      return Err(KeyError("age"));
    }
    var age := info["age"];
    if "sex" !in info {
      FirstMissingAt(SUBJECT_FIELDS, info, 2);
      return Err(KeyError("sex"));
    }
    var gender := Gender(info["sex"]);
    if "laterality" !in info {
      FirstMissingAt(SUBJECT_FIELDS, info, 3);
      return Err(KeyError("laterality"));
    }
    var handedness := Handedness(info["laterality"]);
    var scores: seq<ScoreValue> := [];
    for i := 0 to |SCORE_TYPES|
      invariant |scores| == i
      invariant forall j :: 0 <= j < i ==> scores[j] == ScoreValue(SCORE_TYPES[j], Get(info, SCORE_TYPES[j]))
    {
      var score := SCORE_TYPES[i];
      scores := scores + [ScoreValue(score, if score in info then info[score] else Null)];
    }
    r := Ok(ImportedSubject(SubjectData(identifier, gender, handedness), age, scores));
  }

  datatype CenterDetails = CenterDetails(name: string, department: string, city: string, country: string)

  /** The Center record: just the identifier unless the site is known. */
  datatype CenterData = CenterData(identifier: Value, details: Option<CenterDetails>)

  const KNOWN_SITES: set<Value> := {Str("SHFJ"), Str("Neurospin")}

  /** import_center. */
  function ImportCenter(info: Record): (r: Result<CenterData>)
    ensures r.Ok? <==> "site" in info
    ensures r.Err? ==> r.error == KeyError("site")
    ensures r.Ok? ==> r.value.identifier == info["site"]
    ensures r.Ok? ==> (r.value.details.Some? <==> info["site"] in KNOWN_SITES)
    ensures r.Ok? && r.value.details.Some? ==>
      var d := r.value.details.value;
      Str(d.name) == info["site"] && d.department == "Essonne" && d.country == "France"
      && d.city == (if d.name == "SHFJ" then "Orsay" else "Gif-sur-Yvette")
  {
    if "site" !in info then Err(KeyError("site"))
    else
      var site := info["site"];
      if site == Str("SHFJ") then Ok(CenterData(site, Some(CenterDetails("SHFJ", "Essonne", "Orsay", "France"))))
      else if site == Str("Neurospin") then
        Ok(CenterData(site, Some(CenterDetails("Neurospin", "Essonne", "Gif-sur-Yvette", "France"))))
      else Ok(CenterData(site, None))
  }

  datatype DeviceData = DeviceData(name: string, manufacturer: string, model: string, hostedBy: string)

  /** import_device: an empty record (None) unless the site is known. */
  function ImportDevice(info: Record): (r: Result<Option<DeviceData>>)
    ensures r.Ok? <==> "site" in info
    ensures r.Err? ==> r.error == KeyError("site")
    ensures r.Ok? ==> (r.value.Some? <==> info["site"] in KNOWN_SITES)
    ensures r.Ok? && r.value.Some? ==>
      var d := r.value.value;
      && Str(d.hostedBy) == info["site"]
      && d.manufacturer == (if d.hostedBy == "SHFJ" then "Brucker" else "SIEMENS")
      && d.model == (if d.hostedBy == "SHFJ" then "3T Brucker" else "Trio")
      && d.name == (if d.hostedBy == "SHFJ" then d.model else "3T " + d.manufacturer + " " + d.model)
  {
    if "site" !in info then Err(KeyError("site"))
    else
      var site := info["site"];
      if site == Str("Neurospin") then Ok(Some(DeviceData("3T SIEMENS Trio", "SIEMENS", "Trio", "Neurospin")))
      else if site == Str("SHFJ") then Ok(Some(DeviceData("3T Brucker", "Brucker", "3T Brucker", "SHFJ")))
      else Ok(None)
  }

  /** Two records of known sites get the same device name exactly when their
      sites agree, so the Device cache holds one device per site. */
  lemma DeviceNameBySite(a: Record, b: Record)
    requires "site" in a && a["site"] in KNOWN_SITES && "site" in b && b["site"] in KNOWN_SITES
    ensures ImportDevice(a).value.Some? && ImportDevice(b).value.Some?
    ensures ImportDevice(a).value.value.name == ImportDevice(b).value.value.name <==> a["site"] == b["site"]
  {
    var da, db := ImportDevice(a).value.value, ImportDevice(b).value.value;
    if da.name == db.name {
      assert da.name[3] == db.name[3];
    }
  }

  /** A device is hosted by the center named after the same site. */
  lemma DeviceHostedByCenter(info: Record)
    requires ImportDevice(info).Ok? && ImportDevice(info).value.Some?
    ensures ImportCenter(info).Ok? && ImportCenter(info).value.details.Some?
    ensures ImportCenter(info).value.details.value.name == ImportDevice(info).value.value.hostedBy
  {
  }

  datatype AssessmentData = AssessmentData(
    identifier: string, protocol: Value, ageForAssessment: Value,
    timepoint: Value, relatedStudy: nat, datetime: Option<Value>)

  const ASSESSMENT_FIELDS: seq<string> := ["nip", "protocol", "date"]

  /** import_assessment: the identifier is '%s_%s' % (nip, phase); the date
      is kept as given (its strptime parse is not modelled) and datetime is
      None exactly when the date is falsy. */
  function ImportAssessment(info: Record, age: Value, phase: string, studyEid: nat): (r: Result<AssessmentData>)
    ensures r.Ok? <==> forall k :: k in ASSESSMENT_FIELDS ==> k in info
    ensures r.Err? ==> r.error == KeyError(FirstMissing(ASSESSMENT_FIELDS, info))
    ensures r.Ok? ==>
      && r.value.identifier == PyStr(info["nip"]) + "_" + phase
      && r.value.protocol == info["protocol"]
      && r.value.ageForAssessment == age
      && r.value.timepoint == info["date"]
      && r.value.relatedStudy == studyEid
      && (r.value.datetime.None? <==> !Truthy(info["date"]))
      && (r.value.datetime.Some? ==> r.value.datetime.value == info["date"])
  {
    if "nip" !in info then Err(KeyError("nip"))
    else if "protocol" !in info then Err(KeyError("protocol"))
    else if "date" !in info then Err(KeyError("date"))
    else
      var date := info["date"];
      Ok(AssessmentData(PyStr(info["nip"]) + "_" + phase, info["protocol"], age, date, studyEid,
                        if Truthy(Get(info, "date")) then Some(date) else None))
  }

  /** A string nip gives the same assessment identifiers as the JSON export
      (nip + '_' + label). */
  lemma AssessmentIdentifierAsJson(info: Record, age: Value, phase: string, studyEid: nat)
    requires ImportAssessment(info, age, phase, studyEid).Ok? && info["nip"].Str?
    ensures ImportAssessment(info, age, phase, studyEid).value.identifier == info["nip"].s + "_" + phase
  {
  }

  // ---------------------------------------------------------------------------
  // Scans

  /** The 'Scan' record of an import, with the MRI sequence of its MRIData. A
      description of None means the record has none. */
  datatype ImagingScan = ImagingScan(
    identifier: string, scanLabel: string, scanType: string, filepath: seq<string>,
    format: string, timepoint: Value, completed: bool, valid: bool,
    description: Option<Value>, sequence: Option<string>)

  /** One 'k=%(k)s' field of the description's format string. */
  function IssueField(info: Record, k: string): string
    requires k in info
  {
    k + "=" + PyStr(info[k])
  }

  /** 'epi_problem=%(epi_problem)s sound_problem=... motor_error=...' % info. */
  function FmriPrefix(info: Record): string
    requires forall k :: k in FMRI_FIELDS ==> k in info
  {
    IssueField(info, "epi_problem") + " " + IssueField(info, "sound_problem") + " "
      + IssueField(info, "video_problem") + " " + IssueField(info, "motor_error")
  }

  /** ' t' for each truthy sequence tag t of `tags`, in order. */
  function SeqTags(info: Record, tags: seq<string>): string
    requires forall k :: k in tags ==> k in info
    decreases |tags|
  {
    if tags == [] then ""
    else
      var t := tags[|tags| - 1];
      SeqTags(info, tags[..|tags| - 1]) + (if Truthy(info[t]) then " " + t else "")
  }

  /** The keys the fMRI branch of import_neuroimaging reads, in reading order. */
  const FMRI_SCAN_FIELDS: seq<string> := ["exam", "date"] + FMRI_FIELDS + SEQ_TYPES
  const ANAT_SCAN_FIELDS: seq<string> := ["exam", "date", "anatomy"]

  /** The sequence-tag loop of import_neuroimaging: ' t' is appended to the
      description for each truthy tag t, in order, each tag read with `[]`. */
  method AppendTruthyTags(info: Record, description: string, tags: seq<string>) returns (r: Result<string>)
    ensures r.Ok? <==> forall k :: k in tags ==> k in info
    ensures r.Err? ==> r.error == KeyError(FirstMissing(tags, info))
    ensures r.Ok? ==> r.value == description + SeqTags(info, tags)
  {
    var text := description;
    for i := 0 to |tags|
      invariant forall j :: 0 <= j < i ==> tags[j] in info
      invariant text == description + SeqTags(info, tags[..i])
    {
      var seqType := tags[i];
      if seqType !in info {
        FirstMissingAt(tags, info, i);
        return Err(KeyError(seqType));
      }
      assert tags[..i + 1][..i] == tags[..i];
      if Truthy(info[seqType]) {
        text := text + " " + seqType;
      }
    }
    assert tags[..|tags|] == tags;
    r := Ok(text);
  }

  /** import_neuroimaging without the image header. The anatomy label
      reads the module-level `normalized`, the main loop's variable, while
      the type reads norm_prep: here the two are separate parameters. */
  method ImportNeuroimaging(info: Record, dtype: string, normPrep: bool, normalized: bool)
    returns (r: Result<ImagingScan>)
    ensures dtype == "anat" ==> (r.Ok? <==> forall k :: k in ANAT_SCAN_FIELDS ==> k in info)
    ensures dtype == "anat" && r.Err? ==> r.error == KeyError(FirstMissing(ANAT_SCAN_FIELDS, info))
    ensures dtype != "anat" ==> (r.Ok? <==> forall k :: k in FMRI_SCAN_FIELDS ==> k in info)
    ensures dtype != "anat" && r.Err? ==> r.error == KeyError(FirstMissing(FMRI_SCAN_FIELDS, info))
    ensures r.Ok? && dtype == "anat" ==> r.value == ImagingScan(
      PyStr(info["exam"]) + "_anat",
      if normalized then "anatomy" else "raw anatomy",
      if normPrep then "normalized T1" else "raw T1",
      ["anat", if normPrep then "anat_defaced.nii.gz" else "raw_anat_defaced.nii.gz"],
      "nii.gz", info["date"], true, true, Some(info["anatomy"]), Some("T1"))
    ensures r.Ok? && dtype != "anat" ==> r.value == ImagingScan(
      PyStr(info["exam"]) + (if normPrep then "_fmri" else "_raw_fmri"),
      if normPrep then "bold" else "raw bold",
      if normPrep then "preprocessed fMRI" else "raw fMRI",
      ["fmri", if normPrep then "bold.nii.gz" else "raw_bold.nii.gz"],
      "nii.gz", info["date"], true, true, Some(Str(FmriPrefix(info) + SeqTags(info, SEQ_TYPES))), Some("EPI"))
  {
    if dtype == "anat" {
      r := ImportAnat(info, normPrep, normalized);
    } else {
      r := ImportFmri(info, normPrep);
    }
  }

  /** The anatomy import as the main loop calls it: the loop variable
      `normalized` is also passed as norm_prep, so label and type agree. */
  method ImportAnatAsCalled(info: Record, normalized: bool) returns (r: Result<ImagingScan>)
    ensures r.Ok? <==> forall k :: k in ANAT_SCAN_FIELDS ==> k in info
    ensures r.Ok? && normalized ==> r.value.scanLabel == "anatomy" && r.value.scanType == "normalized T1"
    ensures r.Ok? && !normalized ==> r.value.scanLabel == "raw anatomy" && r.value.scanType == "raw T1"
  {
    r := ImportNeuroimaging(info, "anat", normalized, normalized);
  }

  /** The anatomy branch: both anatomy scans are identified by
      exam + '_anat'. */
  method ImportAnat(info: Record, normPrep: bool, normalized: bool) returns (r: Result<ImagingScan>)
    ensures r.Ok? <==> forall k :: k in ANAT_SCAN_FIELDS ==> k in info
    ensures r.Err? ==> r.error == KeyError(FirstMissing(ANAT_SCAN_FIELDS, info))
    ensures r.Ok? ==> r.value == ImagingScan(
      PyStr(info["exam"]) + "_anat",
      if normalized then "anatomy" else "raw anatomy",
      if normPrep then "normalized T1" else "raw T1",
      ["anat", if normPrep then "anat_defaced.nii.gz" else "raw_anat_defaced.nii.gz"],
      "nii.gz", info["date"], true, true, Some(info["anatomy"]), Some("T1"))
  {
    if "exam" !in info { return Err(KeyError("exam")); }
    var exam := PyStr(info["exam"]);
    var scanLabel := if normalized then "anatomy" else "raw anatomy";
    var scanType := if normPrep then "normalized T1" else "raw T1";
    var path := ["anat", if normPrep then "anat_defaced.nii.gz" else "raw_anat_defaced.nii.gz"];
    if "date" !in info {
      FirstMissingAt(ANAT_SCAN_FIELDS, info, 1);
      return Err(KeyError("date"));
    }
    if "anatomy" !in info {
      FirstMissingAt(ANAT_SCAN_FIELDS, info, 2);
      return Err(KeyError("anatomy"));
    }
    r := Ok(ImagingScan(exam + "_anat", scanLabel, scanType, path, "nii.gz", info["date"], true, true,
                        Some(info["anatomy"]), Some("T1")));
  }

  /** The fMRI branch: the description is the format string over the four
      issue fields, then the truthy sequence tags. */
  method ImportFmri(info: Record, normPrep: bool) returns (r: Result<ImagingScan>)
    ensures r.Ok? <==> forall k :: k in FMRI_SCAN_FIELDS ==> k in info
    ensures r.Err? ==> r.error == KeyError(FirstMissing(FMRI_SCAN_FIELDS, info))
    ensures r.Ok? ==> r.value == ImagingScan(
      PyStr(info["exam"]) + (if normPrep then "_fmri" else "_raw_fmri"),
      if normPrep then "bold" else "raw bold",
      if normPrep then "preprocessed fMRI" else "raw fMRI",
      ["fmri", if normPrep then "bold.nii.gz" else "raw_bold.nii.gz"],
      "nii.gz", info["date"], true, true, Some(Str(FmriPrefix(info) + SeqTags(info, SEQ_TYPES))), Some("EPI"))
  {
    FmriScanFieldsSplit(info);
    var missing := FmriFirstMissing(info);
    if missing.Some? {
      return Err(KeyError(missing.value));
    }
    var exam := PyStr(info["exam"]);
    var identifier := if normPrep then exam + "_fmri" else exam + "_raw_fmri";
    var scanLabel := if normPrep then "bold" else "raw bold";
    var scanType := if normPrep then "preprocessed fMRI" else "raw fMRI";
    var path := ["fmri", if normPrep then "bold.nii.gz" else "raw_bold.nii.gz"];
    var description := AppendTruthyTags(info, FmriPrefix(info), SEQ_TYPES);
    if description.Err? {
      FirstMissingAfter(["exam", "date"] + FMRI_FIELDS, SEQ_TYPES, info);
      return Err(description.error);
    }
    r := Ok(ImagingScan(identifier, scanLabel, scanType, path, "nii.gz", info["date"], true, true,
                        Some(Str(description.value)), Some("EPI")));
  }

  /** The lookups of the fMRI branch before the sequence tags, in the
      branch's order: exam, date, then the four issue fields. */
  method FmriFirstMissing(info: Record) returns (missing: Option<string>)
    ensures missing.None? <==>
      && "exam" in info && "date" in info
      && "epi_problem" in info && "sound_problem" in info && "video_problem" in info && "motor_error" in info
    ensures missing.Some? ==>
      (exists i :: 0 <= i < |FMRI_SCAN_FIELDS| && FMRI_SCAN_FIELDS[i] !in info)
      && missing.value == FirstMissing(FMRI_SCAN_FIELDS, info)
  {
    var f := FMRI_SCAN_FIELDS;
    assert f[0] == "exam" && f[1] == "date" && f[2] == "epi_problem" && f[3] == "sound_problem";
    assert f[4] == "video_problem" && f[5] == "motor_error";
    missing := None;
    if "exam" !in info {
      FirstMissingAt(f, info, 0);
      missing := Some("exam");
    } else if "date" !in info {
      FirstMissingAt(f, info, 1);
      missing := Some("date");
    } else if "epi_problem" !in info {
      FirstMissingAt(f, info, 2);
      missing := Some("epi_problem");
    } else if "sound_problem" !in info {
      FirstMissingAt(f, info, 3);
      missing := Some("sound_problem");
    } else if "video_problem" !in info {
      FirstMissingAt(f, info, 4);
      missing := Some("video_problem");
    } else if "motor_error" !in info {
      FirstMissingAt(f, info, 5);
      missing := Some("motor_error");
    }
  }

  /** The fMRI branch reads exam, date, the four issue fields and then the
      sequence tags. */
  lemma FmriScanFieldsSplit(info: Record)
    ensures (forall k :: k in FMRI_SCAN_FIELDS ==> k in info) <==>
      && "exam" in info && "date" in info
      && "epi_problem" in info && "sound_problem" in info && "video_problem" in info && "motor_error" in info
      && forall k :: k in SEQ_TYPES ==> k in info
  {
    var f := FMRI_SCAN_FIELDS;
    assert f[0] == "exam" && f[1] == "date" && f[2] == "epi_problem" && f[3] == "sound_problem";
    assert f[4] == "video_problem" && f[5] == "motor_error";
    assert f == ["exam", "date"] + FMRI_FIELDS + SEQ_TYPES;
  }

  /** The sequence-tag tail of the description is ' '.join applied after a
      first token. */
  function Tail(ts: seq<string>, sep: string): string
    decreases |ts|
  {
    if ts == [] then "" else Tail(ts[..|ts| - 1], sep) + sep + ts[|ts| - 1]
  }

  lemma {:induction false} JoinAppend(ts: seq<string>, us: seq<string>, sep: string)
    requires |ts| > 0
    ensures Join(ts + us, sep) == Join(ts, sep) + Tail(us, sep)
    decreases |us|
  {
    if us != [] {
      var init := us[..|us| - 1];
      JoinAppend(ts, init, sep);
      assert (ts + us)[..|ts + us| - 1] == ts + init;
    } else {
      assert ts + us == ts;
    }
  }

  lemma {:induction false} SeqTagsAsTail(info: Record, tags: seq<string>)
    requires forall k :: k in tags ==> k in info
    ensures SeqTags(info, tags) == Tail(JsonLocalizer.SequenceTokens(info, tags), " ")
    decreases |tags|
  {
    if tags != [] {
      var init := tags[..|tags| - 1];
      SeqTagsAsTail(info, init);
      var ts := JsonLocalizer.SequenceTokens(info, init);
      var t := tags[|tags| - 1];
      if Truthy(info[t]) {
        assert (ts + [t])[..|ts + [t]| - 1] == ts;
      } else {
        assert ts + [] == ts;
      }
    }
  }

  /** With every issue flag set, the JSON export's issue tokens are the four
      fields of the format string. */
  lemma IssueTokensAllSet(info: Record)
    requires forall k :: k in FMRI_FIELDS ==> k in info && info[k] != Null
    ensures JsonLocalizer.IssueTokens(info, FMRI_FIELDS) == [
      IssueField(info, "epi_problem"), IssueField(info, "sound_problem"),
      IssueField(info, "video_problem"), IssueField(info, "motor_error")]
  {
    var f := FMRI_FIELDS;
    assert f[0] in f && f[1] in f && f[2] in f && f[3] in f;
    IssueTokensAllPresent(info, f);
  }

  /** ts are the fields of the keys of order, one per key, in order. */
  predicate FieldsOf(info: Record, ts: seq<string>, order: seq<string>) {
    && |ts| == |order|
    && forall i :: 0 <= i < |order| ==> order[i] in info && ts[i] == IssueField(info, order[i])
  }

  lemma FieldsAppend(info: Record, ts: seq<string>, order: seq<string>, k: string)
    requires FieldsOf(info, ts, order) && k in info
    ensures FieldsOf(info, ts + [IssueField(info, k)], order + [k])
  {
  }

  /** When every key of order is set to a non-None value, each yields its
      token, in order. */
  lemma {:induction false} IssueTokensAllPresent(info: Record, order: seq<string>)
    requires forall i :: 0 <= i < |order| ==> order[i] in info && info[order[i]] != Null
    ensures FieldsOf(info, JsonLocalizer.IssueTokens(info, order), order)
    decreases |order|
  {
    if order != [] {
      var n := |order| - 1;
      var init := order[..n];
      assert forall i :: 0 <= i < |init| ==> init[i] == order[i];
      IssueTokensAllPresent(info, init);
      IssueTokensLast(info, order);
      FieldsAppend(info, JsonLocalizer.IssueTokens(info, init), init, order[n]);
      assert init + [order[n]] == order;
    }
  }

  /** The last key of order, set to a non-None value, yields the last token. */
  lemma IssueTokensLast(info: Record, order: seq<string>)
    requires order != [] && order[|order| - 1] in info && info[order[|order| - 1]] != Null
    ensures JsonLocalizer.IssueTokens(info, order)
      == JsonLocalizer.IssueTokens(info, order[..|order| - 1]) + [IssueField(info, order[|order| - 1])]
  {
  }

  lemma PrefixAsJoin(info: Record)
    requires forall k :: k in FMRI_FIELDS ==> k in info
    ensures Join([IssueField(info, "epi_problem"), IssueField(info, "sound_problem"),
                  IssueField(info, "video_problem"), IssueField(info, "motor_error")], " ") == FmriPrefix(info)
  {
    var t0, t1, t2, t3 := IssueField(info, "epi_problem"), IssueField(info, "sound_problem"),
                          IssueField(info, "video_problem"), IssueField(info, "motor_error");
    assert [t0, t1, t2, t3][..3] == [t0, t1, t2];
    assert [t0, t1, t2][..2] == [t0, t1];
    assert [t0, t1][..1] == [t0];
    assert Join([t0, t1], " ") == t0 + " " + t1;
    assert Join([t0, t1, t2], " ") == Join([t0, t1], " ") + " " + t2;
    assert Join([t0, t1, t2, t3], " ") == Join([t0, t1, t2], " ") + " " + t3;
  }

  /** The two exports agree on the fMRI description when every issue flag is
      set and the JSON export iterates the sets in this module's declaration
      order: the direct-load prefix lists the four issues in the same form. */
  lemma FmriDescriptionAsJson(info: Record)
    requires forall k :: k in FMRI_FIELDS ==> k in info && info[k] != Null
    requires forall k :: k in SEQ_TYPES ==> k in info
    ensures JsonLocalizer.Described(JsonLocalizer.IssueTokens(info, FMRI_FIELDS)
                                    + JsonLocalizer.SequenceTokens(info, SEQ_TYPES))
            == Some(FmriPrefix(info) + SeqTags(info, SEQ_TYPES))
  {
    var issues := JsonLocalizer.IssueTokens(info, FMRI_FIELDS);
    var tags := JsonLocalizer.SequenceTokens(info, SEQ_TYPES);
    IssueTokensAllSet(info);
    PrefixAsJoin(info);
    assert Join(issues, " ") == FmriPrefix(info);
    JoinAppend(issues, tags, " ");
    SeqTagsAsTail(info, SEQ_TYPES);
    assert issues + tags != [];
  }

  /** The declaration orders used by this module are iteration orders of the
      JSON export's sets. */
  lemma DeclarationOrders()
    ensures JsonLocalizer.IsOrderOf(FMRI_FIELDS, JsonLocalizer.FMRI_ISSUES)
    ensures JsonLocalizer.IsOrderOf(SEQ_TYPES, JsonLocalizer.SEQUENCE_TYPES)
  {
  }

  /** A listing entry glob('*.nii.gz') matches: the name ends in '.nii.gz'
      and, as for every '*' pattern, does not start with a dot. */
  predicate GlobMatch(name: string) {
    EndsWith(name, NIFTI_SUFFIX) && !StartsWith(name, ".")
  }

  function GlobNifti(listing: seq<string>): seq<string>
    decreases |listing|
  {
    if listing == [] then []
    else
      var e := listing[|listing| - 1];
      GlobNifti(listing[..|listing| - 1]) + (if GlobMatch(e) then [e] else [])
  }

  lemma {:induction false} GlobNiftiMembers(listing: seq<string>)
    ensures forall e :: e in GlobNifti(listing) <==> e in listing && GlobMatch(e)
    decreases |listing|
  {
    if listing != [] {
      var init := listing[..|listing| - 1];
      GlobNiftiMembers(init);
      assert listing == init + [listing[|listing| - 1]];
    }
  }

  /** One element yielded by import_maps: the scan, and the contrast
      definition resource next to it. */
  datatype MapImport = MapImport(scan: ImagingScan, resourceName: string, resourcePath: seq<string>)

  /** What import_maps yields for the file `name`. */
  function MapImportOf(info: Record, dtype: string, name: string): MapImport
    requires "exam" in info && "date" in info
  {
    var stem := Before(name, NIFTI_SUFFIX);
    MapImport(
      ImagingScan(PyStr(info["exam"]) + "_" + dtype + "_map", ReplaceChar(stem, '_', ' '),
                  dtype + " map", [dtype + "_maps", name], "nii.gz", info["date"], true, true, None, None),
      "contrast definition", ["contrasts", stem + ".json"])
  }

  /** import_maps over the listing of the '<dtype>_maps' directory. exam and
      date are read per file, so a missing one fails only when some file
      matches. */
  method ImportMaps(info: Record, dtype: string, listing: seq<string>) returns (r: Result<seq<MapImport>>)
    ensures r.Ok? <==> GlobNifti(listing) == [] || ("exam" in info && "date" in info)
    ensures r.Err? ==> r.error == KeyError(if "exam" !in info then "exam" else "date")
    ensures r.Ok? ==> |r.value| == |GlobNifti(listing)|
    ensures r.Ok? && r.value != [] ==> "exam" in info && "date" in info
    ensures r.Ok? ==> forall i :: 0 <= i < |r.value| ==> r.value[i] == MapImportOf(info, dtype, GlobNifti(listing)[i])
  {
    var maps: seq<MapImport> := [];
    for i := 0 to |listing|
      invariant GlobNifti(listing[..i]) != [] ==> "exam" in info && "date" in info
      invariant |maps| == |GlobNifti(listing[..i])|
      invariant forall j :: 0 <= j < |maps| ==> maps[j] == MapImportOf(info, dtype, GlobNifti(listing[..i])[j])
    {
      var name := listing[i];
      assert listing[..i + 1][..i] == listing[..i];
      if !GlobMatch(name) {
        continue;
      }
      if "exam" !in info || "date" !in info {
        GlobNiftiPrefix(listing, i + 1);
        return Err(KeyError(if "exam" !in info then "exam" else "date"));
      }
      var stem := Before(name, NIFTI_SUFFIX);
      var scan := ImagingScan(PyStr(info["exam"]) + "_" + dtype + "_map", ReplaceChar(stem, '_', ' '),
                              dtype + " map", [dtype + "_maps", name], "nii.gz", info["date"], true, true,
                              None, None);
      maps := maps + [MapImport(scan, "contrast definition", ["contrasts", stem + ".json"])];
    }
    assert listing[..|listing|] == listing;
    r := Ok(maps);
  }

  /** The scans import_maps yields: one identifier, exam + '_' + dtype +
      '_map', for every file; the label is the part of the file name before
      the first '.nii.gz' with underscores turned into spaces; the contrast
      definition sits in contrasts/ under the same stem. */
  lemma MapImportNaming(info: Record, dtype: string, name: string, other: string)
    requires "exam" in info && "date" in info
    ensures var m := MapImportOf(info, dtype, name);
      var stem := Before(name, NIFTI_SUFFIX);
      && m.scan.identifier == MapImportOf(info, dtype, other).scan.identifier
      && m.scan.identifier == PyStr(info["exam"]) + "_" + dtype + "_map"
      && StartsWith(name, stem)
      && (forall i :: 0 <= i < |stem| ==> !OccursAt(name, NIFTI_SUFFIX, i))
      && |m.scan.scanLabel| == |stem|
      && (forall i :: 0 <= i < |stem| ==> m.scan.scanLabel[i] == (if stem[i] == '_' then ' ' else stem[i]))
      && m.scan.filepath == [dtype + "_maps", name]
      && m.resourcePath == ["contrasts", stem + ".json"]
  {
  }

  lemma {:induction false} GlobNiftiPrefix(listing: seq<string>, i: nat)
    requires i <= |listing| && GlobNifti(listing[..i]) != []
    ensures GlobNifti(listing) != []
    decreases |listing| - i
  {
    if i < |listing| {
      assert listing[..i + 1][..i] == listing[..i];
      GlobNiftiPrefix(listing, i + 1);
    } else {
      assert listing[..i] == listing;
    }
  }

  /** import_mask without the image header. */
  function ImportMask(info: Record): (r: Result<ImagingScan>)
    ensures r.Ok? <==> "exam" in info && "date" in info
    ensures r.Err? ==> r.error == KeyError(if "exam" !in info then "exam" else "date")
    ensures r.Ok? ==>
      && r.value.identifier == PyStr(info["exam"]) + "_mask"
      && r.value.filepath == ["mask.nii.gz"] && r.value.timepoint == info["date"]
      && r.value.description.None? && r.value.sequence.None?
  {
    if "exam" !in info then Err(KeyError("exam"))
    else if "date" !in info then Err(KeyError("date"))
    else Ok(ImagingScan(PyStr(info["exam"]) + "_mask", "mask", "boolean mask", ["mask.nii.gz"], "nii.gz",
                        info["date"], true, true, None, None))
  }

  /** With exam equal to the nip, the mask scan is identified and stored as
      in the JSON export. */
  lemma MaskAsJson(info: Record, nip: string)
    requires ImportMask(info).Ok? && info["exam"] == Str(nip)
    ensures ImportMask(info).value.identifier == JsonLocalizer.MaskScans(nip)[0].identifier
    ensures ImportMask(info).value.filepath == JsonLocalizer.MaskScans(nip)[0].resources[0].filepath
  {
  }

  // ---------------------------------------------------------------------------
  // Questionnaires

  datatype QuestionnaireData = QuestionnaireData(
    name: string, identifier: string, qtype: string, version: string, language: string)

  datatype Question = Question(identifier: string, position: nat, text: string, qtype: string)

  datatype ImportedQuestionnaire = ImportedQuestionnaire(questionnaire: QuestionnaireData, questions: seq<Question>)

  const LOCALIZER_QUESTIONNAIRE: QuestionnaireData :=
    QuestionnaireData("localizer questionnaire", "localizer_questionnaire", "behavioural", "1.0", "French")

  /** import_questionnaire: one question per behavioural key other than
      'date', ranked by sorted key. */
  method ImportQuestionnaire(behave: Record) returns (r: Result<ImportedQuestionnaire>)
    ensures r.Ok? <==> "date" in behave
    ensures r.Err? ==> r.error == KeyError("date")
    ensures r.Ok? ==> r.value.questionnaire == LOCALIZER_QUESTIONNAIRE
    ensures r.Ok? ==>
      var keys := behave.Keys - {"date"};
      var qs := r.value.questions;
      && |qs| == |SortedSeq(keys)| == |keys|
      && (forall i :: 0 <= i < |qs| ==> qs[i] == Question(
            "localizer_" + NatToString(i), i, SortedSeq(keys)[i],
            if behave[SortedSeq(keys)[i]].Bool? then "boolean" else "float"))
  {
    if "date" !in behave {
      return Err(KeyError("date"));
    }
    var items := SortedKeys(behave.Keys - {"date"});
    var questions := BuildQuestions(behave, items);
    r := Ok(ImportedQuestionnaire(LOCALIZER_QUESTIONNAIRE, questions));
  }

  /** The question loop: question i has identifier 'localizer_i', position
      i, the i-th item as text, and type boolean exactly for a boolean value. */
  method BuildQuestions(behave: Record, items: seq<string>) returns (questions: seq<Question>)
    requires forall j :: 0 <= j < |items| ==> items[j] in behave
    ensures |questions| == |items|
    ensures forall j :: 0 <= j < |items| ==> questions[j] == Question(
      "localizer_" + NatToString(j), j, items[j], if behave[items[j]].Bool? then "boolean" else "float")
  {
    questions := [];
    for i := 0 to |items|
      invariant |questions| == i
      invariant forall j :: 0 <= j < i ==> questions[j] == Question(
        "localizer_" + NatToString(j), j, items[j], if behave[items[j]].Bool? then "boolean" else "float")
    {
      var question := Question("localizer_" + NatToString(i), i, items[i],
                               if behave[items[i]].Bool? then "boolean" else "float");
      questions := questions + [question];
    }
  }

  /** Questions ranked by sorted key have strictly increasing texts, and
      every key has a question. */
  lemma QuestionTextsRanked(qs: seq<Question>, keys: set<string>)
    requires |qs| == |SortedSeq(keys)|
    requires forall i :: 0 <= i < |qs| ==> qs[i].text == SortedSeq(keys)[i]
    ensures forall i, j :: 0 <= i < j < |qs| ==> Less(qs[i].text, qs[j].text)
    ensures forall k :: k in keys <==> exists i :: 0 <= i < |qs| && qs[i].text == k
  {
    var s := SortedSeq(keys);
    forall k | k in keys ensures exists i :: 0 <= i < |qs| && qs[i].text == k {
      var i :| 0 <= i < |s| && s[i] == k;
      assert qs[i].text == k;
    }
  }

  /** Python's float(val) on a non-string JSON value, with numbers kept as
      integers. */
  function Number(v: Value): int {
    match v
    case Null => 0
    case Bool(b) => if b then 1 else 0
    case Int(i) => i
    case Str(_) => 0
  }

  /** The keys of `keys` whose values are not strings: the answered ones. */
  function AnswerKeys(keys: seq<string>, d: Record): (r: seq<string>)
    requires forall k :: k in keys ==> k in d
    ensures forall k :: k in r ==> k in keys && !d[k].Str?
    decreases |keys|
  {
    if keys == [] then []
    else
      var k := keys[|keys| - 1];
      AnswerKeys(keys[..|keys| - 1], d) + (if !d[k].Str? then [k] else [])
  }

  lemma {:induction false} AnswerKeysMembers(keys: seq<string>, d: Record)
    requires forall k :: k in keys ==> k in d
    ensures forall k :: k in AnswerKeys(keys, d) <==> k in keys && !d[k].Str?
    decreases |keys|
  {
    if keys != [] {
      var init := keys[..|keys| - 1];
      AnswerKeysMembers(init, d);
      assert keys == init + [keys[|keys| - 1]];
    }
  }

  datatype Run = Run(
    identifier: string, userIdent: string, datetime: Option<Value>,
    iteration: nat, completed: bool, valid: bool, instanceOf: nat)

  datatype Answer = Answer(value: Option<int>, datetime: Option<Value>, question: nat)

  datatype ImportedRun = ImportedRun(run: Run, answers: seq<Answer>)

  /** The answer to question k: None when the value is falsy. */
  function AnswerOf(d: Record, k: string, datetime: Option<Value>, questionsId: map<string, nat>): (a: Answer)
    requires k in d && k in questionsId
    ensures a.value.None? <==> !Truthy(d[k])
    ensures a.datetime == datetime && a.question == questionsId[k]
  {
    Answer(if Truthy(d[k]) then Some(Number(d[k])) else None, datetime, questionsId[k])
  }

  lemma AnswerKeysStep(items: seq<string>, d: Record, i: nat)
    requires i < |items| && forall k :: k in items ==> k in d
    ensures forall k :: k in items[..i] ==> k in d
    ensures AnswerKeys(items[..i + 1], d)
      == AnswerKeys(items[..i], d) + (if !d[items[i]].Str? then [items[i]] else [])
  {
    assert items[..i + 1][..i] == items[..i];
  }

  /** The behavioural answers: everything but 'date' and 'nip'. */
  function AnswerRecord(behave: Record): Record {
    behave - {"date", "nip"}
  }

  predicate Answered(d: Record, k: string) {
    k in d && !d[k].Str?
  }

  /** import_questionnaire_run. `sid` is the base name of the subject
      directory. Answers follow sorted key order and skip string values;
      falsy values are recorded as None. */
  method ImportQuestionnaireRun(behave: Record, sid: string, questionnaireId: nat, questionsId: map<string, nat>)
    returns (r: Result<ImportedRun>)
    ensures r.Ok? <==> ("date" in behave && "nip" in behave
      && forall k :: Answered(AnswerRecord(behave), k) ==> k in questionsId)
    ensures r.Err? && "date" !in behave ==> r.error == KeyError("date")
    ensures r.Err? && "date" in behave && "nip" !in behave ==> r.error == KeyError("nip")
    ensures r.Err? && "date" in behave && "nip" in behave ==>
      var d := AnswerRecord(behave);
      r.error.KeyError? && Answered(d, r.error.key) && r.error.key !in questionsId
      && forall k :: Answered(d, k) && Less(k, r.error.key) ==> k in questionsId
    ensures r.Ok? ==>
      var d := AnswerRecord(behave);
      var keys := AnswerKeys(SortedSeq(d.Keys), d);
      var datetime := if Truthy(behave["date"]) then Some(behave["date"]) else None;
      && r.value.run == Run("localizer_questionnaire_" + sid, "subject", datetime, 1, true, true, questionnaireId)
      && |r.value.answers| == |keys|
      && forall i :: 0 <= i < |keys| ==> r.value.answers[i] == Answer(
           if Truthy(d[keys[i]]) then Some(Number(d[keys[i]])) else None, datetime, questionsId[keys[i]])
  {
    var identifier := "localizer_questionnaire_" + sid;
    var datetime := if Truthy(Get(behave, "date")) then Some(behave["date"]) else None;
    if "date" !in behave {
      return Err(KeyError("date"));
    }
    if "nip" !in behave {
      return Err(KeyError("nip"));
    }
    var d := behave - {"date"} - {"nip"};
    assert d == AnswerRecord(behave);
    var run := Run(identifier, "subject", datetime, 1, true, true, questionnaireId);
    var items := SortedKeys(d.Keys);
    var answers := CollectAnswers(d, items, datetime, questionsId);
    if answers.Err? {
      return Err(answers.error);
    }
    r := Ok(ImportedRun(run, answers.value));
  }

  /** The answer loop of import_questionnaire_run over the sorted keys: only
      non-string values are answered, each through questions_id. */
  method CollectAnswers(d: Record, items: seq<string>, datetime: Option<Value>, questionsId: map<string, nat>)
    returns (r: Result<seq<Answer>>)
    requires StrictlySorted(items)
    requires forall k :: k in items <==> k in d
    ensures r.Ok? <==> forall k :: Answered(d, k) ==> k in questionsId
    ensures r.Err? ==>
      r.error.KeyError? && Answered(d, r.error.key) && r.error.key !in questionsId
      && forall k :: Answered(d, k) && Less(k, r.error.key) ==> k in questionsId
    ensures r.Ok? ==> |r.value| == |AnswerKeys(items, d)|
    ensures r.Ok? ==> forall i :: 0 <= i < |r.value| ==>
      var k := AnswerKeys(items, d)[i];
      r.value[i] == Answer(if Truthy(d[k]) then Some(Number(d[k])) else None, datetime, questionsId[k])
  {
    var answers: seq<Answer> := [];
    ghost var keys: seq<string> := [];
    for i := 0 to |items|
      invariant KnownBefore(items, d, questionsId, i)
      invariant keys == AnswerKeys(items[..i], d)
      invariant AnswersFor(answers, keys, d, datetime, questionsId)
    {
      var item := items[i];
      assert item in d;
      AnswerKeysStep(items, d, i);
      if !d[item].Str? {
        if item !in questionsId {
          FirstUnknownQuestion(items, d, questionsId, i);
          return Err(KeyError(item));
        }
        AnswersForAppend(answers, keys, d, item, datetime, questionsId);
        answers := answers + [AnswerOf(d, item, datetime, questionsId)];
        keys := keys + [item];
      }
      KnownBeforeStep(items, d, questionsId, i);
    }
    assert items[..|items|] == items;
    AllQuestionsKnown(items, d, questionsId);
    r := Ok(answers);
  }

  /** Every answered key among the first i items has a question. */
  predicate KnownBefore(items: seq<string>, d: Record, questionsId: map<string, nat>, i: int) {
    forall j :: 0 <= j < i && j < |items| && Answered(d, items[j]) ==> items[j] in questionsId
  }

  lemma KnownBeforeStep(items: seq<string>, d: Record, questionsId: map<string, nat>, i: nat)
    requires i < |items| && KnownBefore(items, d, questionsId, i)
    requires Answered(d, items[i]) ==> items[i] in questionsId
    ensures KnownBefore(items, d, questionsId, i + 1)
  {
  }

  /** answers[j] is the answer to keys[j], for every j. */
  predicate AnswersFor(answers: seq<Answer>, keys: seq<string>, d: Record, datetime: Option<Value>,
                       questionsId: map<string, nat>) {
    && |answers| == |keys|
    && (forall j :: 0 <= j < |keys| ==> keys[j] in d && keys[j] in questionsId)
    && (forall j :: 0 <= j < |keys| ==> answers[j] == AnswerOf(d, keys[j], datetime, questionsId))
  }

  lemma AnswersForAppend(answers: seq<Answer>, keys: seq<string>, d: Record, k: string, datetime: Option<Value>,
                         questionsId: map<string, nat>)
    requires AnswersFor(answers, keys, d, datetime, questionsId)
    requires k in d && k in questionsId
    ensures AnswersFor(answers + [AnswerOf(d, k, datetime, questionsId)], keys + [k], d, datetime, questionsId)
  {
  }

  lemma AllQuestionsKnown(items: seq<string>, d: Record, questionsId: map<string, nat>)
    requires forall k :: k in items <==> k in d
    requires KnownBefore(items, d, questionsId, |items|)
    ensures forall k :: Answered(d, k) ==> k in questionsId
  {
    forall k | Answered(d, k) ensures k in questionsId {
      var j :| 0 <= j < |items| && items[j] == k;
    }
  }

  lemma FirstUnknownQuestion(items: seq<string>, d: Record, questionsId: map<string, nat>, i: nat)
    requires StrictlySorted(items) && (forall k :: k in items <==> k in d)
    requires i < |items| && !d[items[i]].Str? && items[i] !in questionsId
    requires KnownBefore(items, d, questionsId, i)
    ensures Answered(d, items[i]) && items[i] !in questionsId
    ensures forall k :: Answered(d, k) && Less(k, items[i]) ==> k in questionsId
  {
    forall k | Answered(d, k) && Less(k, items[i]) ensures k in questionsId {
      var j :| 0 <= j < |items| && items[j] == k;
      if j >= i {
        if j > i {
          LessAsymmetric(items[i], items[j]);
        } else {
          LessIrreflexive(k);
        }
      }
    }
  }

  // ---------------------------------------------------------------------------
  // Genomic measures

  datatype GenomicMeasure = GenomicMeasure(
    identifier: string, measureType: string, format: string, filepath: seq<string>,
    completed: bool, valid: bool)

  /** import_genomic_measures over the rows of the FAM file: the measures
      keyed by subject id (column 1); a later row with the same id replaces
      the earlier one. */
  method ImportGenomicMeasures(rows: seq<seq<string>>, basename: string)
    returns (r: Result<map<string, GenomicMeasure>>)
    ensures r.Ok? <==> forall i :: 0 <= i < |rows| ==> |rows[i]| >= 2
    ensures r.Err? ==> exists i :: (0 <= i < |rows| && |rows[i]| < 2 && r.error == IndexError(i)
      && forall j :: 0 <= j < i ==> |rows[j]| >= 2)
    ensures r.Ok? ==> r.value.Keys == set i | 0 <= i < |rows| && |rows[i]| >= 2 :: rows[i][1]
    ensures r.Ok? ==> forall k :: k in r.value ==>
      r.value[k] == GenomicMeasure("genomic_measure_" + k, "SNP", "plink", [basename + ".bed"], true, true)
  {
    var measures: map<string, GenomicMeasure> := map[];
    for i := 0 to |rows|
      invariant forall j :: 0 <= j < i ==> |rows[j]| >= 2
      invariant measures.Keys == set j | 0 <= j < i :: rows[j][1]
      invariant forall k :: k in measures ==>
        measures[k] == GenomicMeasure("genomic_measure_" + k, "SNP", "plink", [basename + ".bed"], true, true)
    {
      var row := rows[i];
      if |row| < 2 {
        return Err(IndexError(i));
      }
      var subjectId := row[1];
      measures := measures[subjectId := GenomicMeasure("genomic_measure_" + subjectId, "SNP", "plink",
                                                       [basename + ".bed"], true, true)];
    }
    r := Ok(measures);
  }
}
