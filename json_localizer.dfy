/** The record mappers of importers/json_localizer.py: subject.json and
    behavioural.json become Subject / Assessment / Scan records, a directory
    of subjects is grouped into families and per-site tables, and FAM rows
    become genomic-measure records. File reads are inputs to the model. */
module JsonLocalizer {
  import opened Values

  const GENDER_MAP: map<string, string> := map["1" := "male", "2" := "female"]
  const GENDER_UNKNOWN: string := "unknown"

  const HANDEDNESS_MAP: map<string, string> :=
    map["Right handed" := "right", "Left handed" := "left", "Ambidextrous" := "ambidextrous"]
  const HANDEDNESS_UNKNOWN: string := "unknown"

  const DEMOGRAPHICS: set<string> :=
    {"language", "schizophrenic", "dyslexic", "dyscalculic", "synaesthete"}
  const MRI_ISSUES: set<string> := {"anatomy"}
  const FMRI_ISSUES: set<string> := {"epi_problem", "sound_problem", "video_problem", "motor_error"}
  const SEQUENCE_TYPES: set<string> :=
    {"localizer_long_complex", "localizer_long_easy", "localizer_short_complex", "localizer_short_easy"}
  const ADDITIONAL_INFO: set<string> := DEMOGRAPHICS + MRI_ISSUES + FMRI_ISSUES + SEQUENCE_TYPES

  /** ADDITIONAL_INFO in declaration order. Python iterates the set in hash
      order; the model names the first missing key in this order. */
  const ADDITIONAL_INFO_ORDER: seq<string> := [
    "language", "schizophrenic", "dyslexic", "dyscalculic", "synaesthete",
    "anatomy",
    "epi_problem", "sound_problem", "video_problem", "motor_error",
    "localizer_long_complex", "localizer_long_easy", "localizer_short_complex", "localizer_short_easy"]

  const NIFTI_SUFFIX: string := ".nii.gz"

  datatype Subject = Subject(identifier: Value, codeInStudy: Value, gender: string, handedness: string)

  /** The tuple parse_subject_json returns. */
  datatype SubjectJson = SubjectJson(
    nip: Value, age: Option<int>, family: Value, site: Value, protocol: Value,
    subject: Subject, additionalInfo: Record)

  datatype Assessment = Assessment(identifier: string, ageOfSubject: Option<int>, timepoint: string)

  datatype ExternalFile = ExternalFile(name: string, identifier: string, filepath: seq<string>, absolutePath: bool)

  /** One entry of a 'Scans' list: the 'Scan' dict, the kind of its
      'TypeData', its 'FileSet' and its 'ExternalResources'. A description of
      None means the 'Scan' dict has no 'description' key. */
  datatype Scan = Scan(
    format: string, identifier: string, scanLabel: string, scanType: string,
    description: Option<Value>, completed: bool, valid: bool,
    dataType: string, fileSetName: string, fileSetIdentifier: string,
    resources: seq<ExternalFile>)

  datatype ScanSet = ScanSet(assessment: Assessment, scans: seq<Scan>)
  datatype QuestionnaireSet = QuestionnaireSet(assessment: Assessment, name: string, answers: Record)

  /** The tuple parse_subject_dir returns. */
  datatype ParsedSubject = ParsedSubject(
    nip: string, family: Value, site: Value, subject: Subject,
    scans: seq<ScanSet>, questionnaires: seq<QuestionnaireSet>)

  datatype MapKind = CMap | TMap

  // ---------------------------------------------------------------------------
  // subject.json and behavioural.json

  /** GENDER_MAP.get(sex, GENDER_UNKOWN). */
  function Gender(sex: Value): (g: string)
    ensures g in {"male", "female", "unknown"}
    ensures g == "male" <==> sex == Str("1")
    ensures g == "female" <==> sex == Str("2")
  {
    if sex.Str? && sex.s in GENDER_MAP then GENDER_MAP[sex.s] else GENDER_UNKNOWN
  }

  /** HANDEDNESS_MAP.get(laterality, HANDEDNESS_UNKOWN). */
  function Handedness(laterality: Value): (h: string)
    ensures h in {"right", "left", "ambidextrous", "unknown"}
    ensures h == "right" <==> laterality == Str("Right handed")
    ensures h == "left" <==> laterality == Str("Left handed")
    ensures h == "ambidextrous" <==> laterality == Str("Ambidextrous")
  {
    if laterality.Str? && laterality.s in HANDEDNESS_MAP then HANDEDNESS_MAP[laterality.s]
    else HANDEDNESS_UNKNOWN
  }

  /** `int(age)` unless age is None. */
  function Age(age: Value): (r: Result<Option<int>>)
    ensures r == Ok(None) <==> age == Null
    ensures age.Int? ==> r == Ok(Some(age.i))
    ensures age.Str? ==> (r.Ok? <==> ParseInt(age.s).Ok?)
    ensures r.Err? ==> r.error == ValueError
  {
    match age
    case Null => Ok(None)
    case Bool(b) => Ok(Some(if b then 1 else 0))
    case Int(i) => Ok(Some(i))
    case Str(s) => var n :- ParseInt(s); Ok(Some(n))
  }

  /** An age written as a decimal string reads back as that integer. */
  lemma AgeOfDecimalString(n: int)
    ensures Age(Str(IntToString(n))) == Ok(Some(n))
  {
    ParseIntOfIntToString(n);
  }

  /** parse_subject_json: every listed field is read with `[]`, so a missing
      one raises KeyError; age goes through int() unless it is None. */
  function ParseSubjectJson(data: Record): (r: Result<SubjectJson>)
    ensures r.Ok? <==>
      && "nip" in data && "sex" in data && "age" in data && Age(data["age"]).Ok?
      && "laterality" in data && "family" in data && "site" in data && "protocol" in data
      && ADDITIONAL_INFO <= data.Keys
    ensures r.Err? && r.error.KeyError? ==> r.error.key !in data
    ensures r.Ok? ==>
      var s := r.value;
      && s.nip == data["nip"] && s.family == data["family"] && s.site == data["site"]
      && s.protocol == data["protocol"]
      && Age(data["age"]) == Ok(s.age)
      && s.subject.identifier == data["nip"] && s.subject.codeInStudy == data["nip"]
      && s.subject.gender == Gender(data["sex"])
      && s.subject.handedness == Handedness(data["laterality"])
      && s.additionalInfo.Keys == ADDITIONAL_INFO
      && forall k :: k in ADDITIONAL_INFO ==> s.additionalInfo[k] == data[k]
  {
    if "nip" !in data then Err(KeyError("nip"))
    else if "sex" !in data then Err(KeyError("sex"))
    else if "age" !in data then Err(KeyError("age"))
    else
      var age :- Age(data["age"]);
      SubjectJsonFields(data, age)
  }

  /** The rest of parse_subject_json, once nip, sex and age are read. */
  function SubjectJsonFields(data: Record, age: Option<int>): (r: Result<SubjectJson>)
    requires "nip" in data && "sex" in data && "age" in data
    ensures r.Ok? <==>
      "laterality" in data && "family" in data && "site" in data && "protocol" in data
      && ADDITIONAL_INFO <= data.Keys
    ensures r.Err? ==> r.error.KeyError? && r.error.key !in data
    ensures r.Ok? ==>
      var s := r.value;
      && s.nip == data["nip"] && s.family == data["family"] && s.site == data["site"]
      && s.protocol == data["protocol"] && s.age == age
      && s.subject.identifier == data["nip"] && s.subject.codeInStudy == data["nip"]
      && s.subject.gender == Gender(data["sex"])
      && s.subject.handedness == Handedness(data["laterality"])
      && s.additionalInfo.Keys == ADDITIONAL_INFO
      && forall k :: k in ADDITIONAL_INFO ==> s.additionalInfo[k] == data[k]
  {
    if "laterality" !in data then Err(KeyError("laterality"))
    else if "family" !in data then Err(KeyError("family"))
    else if "site" !in data then Err(KeyError("site"))
    else if "protocol" !in data then Err(KeyError("protocol"))
    else if !(ADDITIONAL_INFO <= data.Keys) then
      AdditionalInfoMissing(data);
      Err(KeyError(FirstMissing(ADDITIONAL_INFO_ORDER, data)))
    else
      var nip := data["nip"];
      var subject := Subject(nip, nip, Gender(data["sex"]), Handedness(data["laterality"]));
      var additionalInfo := map k | k in ADDITIONAL_INFO :: data[k];
      Ok(SubjectJson(nip, age, data["family"], data["site"], data["protocol"], subject, additionalInfo))
  }

  /** A record lacking some additional-info key lacks one of the ordered list. */
  lemma AdditionalInfoMissing(data: Record)
    requires !(ADDITIONAL_INFO <= data.Keys)
    ensures exists i :: 0 <= i < |ADDITIONAL_INFO_ORDER| && ADDITIONAL_INFO_ORDER[i] !in data
  {
    var k :| k in ADDITIONAL_INFO && k !in data;
    assert k in ADDITIONAL_INFO_ORDER;
  }

  /** parse_behavioural_json: the record without its 'date' key. */
  function ParseBehaviouralJson(data: Record): (r: Result<Record>)
    ensures r.Ok? <==> "date" in data
    ensures r.Err? ==> r.error == KeyError("date")
    ensures r.Ok? ==> r.value.Keys == data.Keys - {"date"}
    ensures r.Ok? ==> forall k :: k in r.value ==> r.value[k] == data[k]
  {
    if "date" !in data then Err(KeyError("date")) else Ok(data - {"date"})
  }

  /** {k: additional_info[k] for k in DEMOGRAPHICS}. */
  function Demographics(info: Record): (d: Record)
    requires DEMOGRAPHICS <= info.Keys
    ensures d.Keys == DEMOGRAPHICS
    ensures forall k :: k in d ==> d[k] == info[k]
  {
    map k | k in DEMOGRAPHICS :: info[k]
  }

  /** The behavioural record with questionnaire['language'] = 'French'. */
  function LocalizerQuestionnaire(behavioural: Record): (q: Record)
    ensures q.Keys == behavioural.Keys + {"language"}
    ensures q["language"] == Str("French")
    ensures forall k :: k in behavioural && k != "language" ==> q[k] == behavioural[k]
  {
    behavioural["language" := Str("French")]
  }

  // ---------------------------------------------------------------------------
  // The fMRI scan description

  /** `order` lists the elements of `s`, each once: an iteration order of a
      Python set. */
  ghost predicate IsOrderOf(order: seq<string>, s: set<string>) {
    && (forall i, j :: 0 <= i < j < |order| ==> order[i] != order[j])
    && (forall k :: k in order <==> k in s)
  }

  /** The `k=str(v)` tokens of the non-None issue flags, in iteration order. */
  function IssueTokens(info: Record, order: seq<string>): seq<string>
    decreases |order|
  {
    if order == [] then []
    else
      var k := order[|order| - 1];
      IssueTokens(info, order[..|order| - 1])
        + (if k in info && info[k] != Null then [k + "=" + PyStr(info[k])] else [])
  }

  /** The names of the truthy sequence-type flags, in iteration order. */
  function SequenceTokens(info: Record, order: seq<string>): seq<string>
    decreases |order|
  {
    if order == [] then []
    else
      var k := order[|order| - 1];
      SequenceTokens(info, order[..|order| - 1]) + (if k in info && Truthy(info[k]) then [k] else [])
  }

  /** None for no tokens, otherwise the tokens joined by single spaces. */
  function Described(tokens: seq<string>): Option<string> {
    if tokens == [] then None else Some(Join(tokens, " "))
  }

  /** Appending one more token the way the loop body does. */
  function AppendToken(description: Option<string>, token: string): Option<string> {
    if description.Some? && description.value != "" then Some(description.value + " " + token)
    else Some(token)
  }

  lemma AppendTokenStep(tokens: seq<string>, token: string)
    requires forall i :: 0 <= i < |tokens| ==> tokens[i] != ""
    ensures AppendToken(Described(tokens), token) == Described(tokens + [token])
  {
    var ts := tokens + [token];
    assert ts[..|ts| - 1] == tokens;
    if tokens != [] {
      JoinNonEmpty(tokens, " ");
    }
  }

  lemma {:induction false} IssueTokensNonEmpty(info: Record, order: seq<string>)
    ensures forall i :: 0 <= i < |IssueTokens(info, order)| ==> IssueTokens(info, order)[i] != ""
    decreases |order|
  {
    if order != [] {
      IssueTokensNonEmpty(info, order[..|order| - 1]);
    }
  }

  lemma {:induction false} SequenceTokensNonEmpty(info: Record, order: seq<string>)
    requires forall i :: 0 <= i < |order| ==> order[i] != ""
    ensures forall i :: 0 <= i < |SequenceTokens(info, order)| ==> SequenceTokens(info, order)[i] != ""
    decreases |order|
  {
    if order != [] {
      SequenceTokensNonEmpty(info, order[..|order| - 1]);
    }
  }

  lemma IssueTokensStep(info: Record, order: seq<string>, i: nat)
    requires i < |order|
    ensures IssueTokens(info, order[..i + 1]) ==
      if order[i] in info && info[order[i]] != Null
      then IssueTokens(info, order[..i]) + [order[i] + "=" + PyStr(info[order[i]])]
      else IssueTokens(info, order[..i])
  {
    assert order[..i + 1][..i] == order[..i];
  }

  lemma SequenceTokensStep(info: Record, order: seq<string>, i: nat, issues: seq<string>)
    requires i < |order| && IsOrderOf(order, SEQUENCE_TYPES)
    requires forall j :: 0 <= j < |issues| ==> issues[j] != ""
    ensures issues + SequenceTokens(info, order[..i + 1]) ==
      if order[i] in info && Truthy(info[order[i]])
      then issues + SequenceTokens(info, order[..i]) + [order[i]]
      else issues + SequenceTokens(info, order[..i])
    ensures forall j :: 0 <= j < |issues + SequenceTokens(info, order[..i])| ==>
      (issues + SequenceTokens(info, order[..i]))[j] != ""
  {
    assert order[..i + 1][..i] == order[..i];
    assert forall j :: 0 <= j < i ==> order[..i][j] in SEQUENCE_TYPES;
    SequenceTokensNonEmpty(info, order[..i]);
  }

  /** The description loops of parse_subject_dir: issue tokens first, then
      sequence names, each appended to the string built so far. */
  method FmriDescription(info: Record, issueOrder: seq<string>, seqOrder: seq<string>)
    returns (description: Option<string>)
    requires IsOrderOf(issueOrder, FMRI_ISSUES) && IsOrderOf(seqOrder, SEQUENCE_TYPES)
    ensures description == Described(IssueTokens(info, issueOrder) + SequenceTokens(info, seqOrder))
  {
    description := None;
    for i := 0 to |issueOrder|
      invariant description == Described(IssueTokens(info, issueOrder[..i]))
    {
      var k := issueOrder[i];
      IssueTokensStep(info, issueOrder, i);
      if k in info && info[k] != Null {
        var token := k + "=" + PyStr(info[k]);
        IssueTokensNonEmpty(info, issueOrder[..i]);
        AppendTokenStep(IssueTokens(info, issueOrder[..i]), token);
        if description.Some? && description.value != "" {
          description := Some(description.value + " " + token);
        } else {
          description := Some(token);
        }
      }
    }
    assert issueOrder[..|issueOrder|] == issueOrder;
    ghost var issues := IssueTokens(info, issueOrder);
    IssueTokensNonEmpty(info, issueOrder);
    assert issues + SequenceTokens(info, seqOrder[..0]) == issues;
    for i := 0 to |seqOrder|
      invariant description == Described(issues + SequenceTokens(info, seqOrder[..i]))
    {
      var k := seqOrder[i];
      SequenceTokensStep(info, seqOrder, i, issues);
      if k in info && Truthy(info[k]) {
        AppendTokenStep(issues + SequenceTokens(info, seqOrder[..i]), k);
        if description.Some? && description.value != "" {
          description := Some(description.value + " " + k);
        } else {
          description := Some(k);
        }
      }
    }
    assert seqOrder[..|seqOrder|] == seqOrder;
  }

  lemma {:induction false} IssueTokensEmpty(info: Record, order: seq<string>)
    ensures IssueTokens(info, order) == [] <==>
      forall i :: 0 <= i < |order| ==> order[i] !in info || info[order[i]] == Null
    decreases |order|
  {
    if order != [] {
      var init := order[..|order| - 1];
      IssueTokensEmpty(info, init);
      assert forall i :: 0 <= i < |init| ==> init[i] == order[i];
    }
  }

  lemma {:induction false} SequenceTokensEmpty(info: Record, order: seq<string>)
    ensures SequenceTokens(info, order) == [] <==>
      forall i :: 0 <= i < |order| ==> order[i] !in info || !Truthy(info[order[i]])
    decreases |order|
  {
    if order != [] {
      var init := order[..|order| - 1];
      SequenceTokensEmpty(info, init);
      assert forall i :: 0 <= i < |init| ==> init[i] == order[i];
    }
  }

  /** The fMRI description is None exactly when no issue flag is set to a
      non-None value and no sequence-type flag is truthy, whatever order the
      sets are iterated in. */
  lemma FmriDescriptionNone(info: Record, issueOrder: seq<string>, seqOrder: seq<string>)
    requires IsOrderOf(issueOrder, FMRI_ISSUES) && IsOrderOf(seqOrder, SEQUENCE_TYPES)
    ensures Described(IssueTokens(info, issueOrder) + SequenceTokens(info, seqOrder)) == None <==>
      && (forall k :: k in FMRI_ISSUES && k in info ==> info[k] == Null)
      && (forall k :: k in SEQUENCE_TYPES && k in info ==> !Truthy(info[k]))
  {
    IssueTokensEmpty(info, issueOrder);
    SequenceTokensEmpty(info, seqOrder);
    if forall i :: 0 <= i < |issueOrder| ==> issueOrder[i] !in info || info[issueOrder[i]] == Null {
      forall k | k in FMRI_ISSUES && k in info ensures info[k] == Null {
        var i :| 0 <= i < |issueOrder| && issueOrder[i] == k;
      }
    }
    if forall i :: 0 <= i < |seqOrder| ==> seqOrder[i] !in info || !Truthy(info[seqOrder[i]]) {
      forall k | k in SEQUENCE_TYPES && k in info ensures !Truthy(info[k]) {
        var i :| 0 <= i < |seqOrder| && seqOrder[i] == k;
      }
    }
  }

  // ---------------------------------------------------------------------------
  // c-map and t-map scans

  /** The listing entries that end with '.nii.gz', in listing order. */
  function NiftiEntries(listing: seq<string>): seq<string>
    decreases |listing|
  {
    if listing == [] then []
    else
      var e := listing[|listing| - 1];
      NiftiEntries(listing[..|listing| - 1]) + (if EndsWith(e, NIFTI_SUFFIX) then [e] else [])
  }

  lemma {:induction false} NiftiEntriesMembers(listing: seq<string>)
    ensures forall e :: e in NiftiEntries(listing) <==> e in listing && EndsWith(e, NIFTI_SUFFIX)
    decreases |listing|
  {
    if listing != [] {
      var init := listing[..|listing| - 1];
      NiftiEntriesMembers(init);
      assert listing == init + [listing[|listing| - 1]];
    }
  }

  /** The scan record of one c-map or t-map file. As in the source, the
      external resource of a t map points into c_maps and is named 'c map'. */
  function MapScan(nip: string, entry: string, kind: MapKind): Scan {
    var stem := RemoveAll(entry, NIFTI_SUFFIX);
    var identifier := nip + "_" + ReplaceChar(stem, ' ', '_') + (if kind == CMap then "_c_map" else "_t_map");
    var name := if kind == CMap then "c map" else "t map";
    Scan("nii.gz", identifier, ReplaceChar(stem, '_', ' '), name, None, true, true,
         "FMRIData", name, identifier + "_file_set",
         [ExternalFile("c map", identifier + "_external_file", ["c_maps", entry], true)])
  }

  /** Label and identifier of a map scan: the label is the stem with
      underscores turned into spaces, the identifier is nip, '_', the stem
      with spaces turned into underscores, and the kind's suffix. */
  lemma MapScanNaming(nip: string, entry: string, kind: MapKind)
    ensures var scan := MapScan(nip, entry, kind);
      var stem := RemoveAll(entry, NIFTI_SUFFIX);
      var suffix := if kind == CMap then "_c_map" else "_t_map";
      && |scan.scanLabel| == |stem|
      && (forall i :: 0 <= i < |stem| ==> scan.scanLabel[i] == (if stem[i] == '_' then ' ' else stem[i]))
      && StartsWith(scan.identifier, nip + "_")
      && EndsWith(scan.identifier, suffix)
      && |scan.identifier| == |nip| + 1 + |stem| + |suffix|
      && (forall i :: 0 <= i < |stem| ==>
            scan.identifier[|nip| + 1 + i] == (if stem[i] == ' ' then '_' else stem[i]))
      && scan.resources[0].filepath == ["c_maps", entry]
  {
    var stem := RemoveAll(entry, NIFTI_SUFFIX);
    var suffix := if kind == CMap then "_c_map" else "_t_map";
    var scan := MapScan(nip, entry, kind);
    var middle := ReplaceChar(stem, ' ', '_');
    assert scan.identifier == nip + "_" + middle + suffix;
    assert scan.identifier[..|nip + "_"|] == nip + "_";
    assert scan.identifier[|scan.identifier| - |suffix|..] == suffix;
    forall i | 0 <= i < |stem|
      ensures scan.identifier[|nip| + 1 + i] == (if stem[i] == ' ' then '_' else stem[i])
    {
      assert scan.identifier[|nip| + 1 + i] == middle[i];
    }
  }

  /** For an entry 'x.nii.gz' in which '.nii.gz' occurs only at the end, the
      stem is x: the label is x with '_' turned into ' ', the identifier
      nip_x with ' ' turned into '_', then the kind's suffix. */
  lemma MapScanOfNiftiName(nip: string, x: string, kind: MapKind)
    requires forall i :: OccursAt(x + NIFTI_SUFFIX, NIFTI_SUFFIX, i) ==> i == |x|
    ensures MapScan(nip, x + NIFTI_SUFFIX, kind).scanLabel == ReplaceChar(x, '_', ' ')
    ensures MapScan(nip, x + NIFTI_SUFFIX, kind).identifier ==
      nip + "_" + ReplaceChar(x, ' ', '_') + (if kind == CMap then "_c_map" else "_t_map")
  {
    RemoveAllAppended(x, NIFTI_SUFFIX);
  }

  /** The c-map / t-map loop of parse_subject_dir: one scan per '.nii.gz'
      entry of the listing, in listing order. */
  method MapScans(nip: string, listing: seq<string>, kind: MapKind) returns (scans: seq<Scan>)
    ensures |scans| == |NiftiEntries(listing)|
    ensures forall i :: 0 <= i < |scans| ==> scans[i] == MapScan(nip, NiftiEntries(listing)[i], kind)
  {
    scans := [];
    for i := 0 to |listing|
      invariant |scans| == |NiftiEntries(listing[..i])|
      invariant forall j :: 0 <= j < |scans| ==> scans[j] == MapScan(nip, NiftiEntries(listing[..i])[j], kind)
    {
      var entry := listing[i];
      assert listing[..i + 1][..i] == listing[..i];
      if !EndsWith(entry, NIFTI_SUFFIX) {
        continue;
      }
      scans := scans + [MapScan(nip, entry, kind)];
    }
    assert listing[..|listing|] == listing;
  }

  // ---------------------------------------------------------------------------
  // One subject directory

  function AnatScans(nip: string, description: Value): seq<Scan> {
    [ Scan("nii.gz", nip + "_raw_anat", "raw anatomy", "raw T1", Some(description), true, true,
           "MRIData", "raw anatomy", nip + "_raw_anat_file_set",
           [ExternalFile("raw anatomy", nip + "_raw_anat_external_file", ["anat", "raw_anat_defaced.nii.gz"], true)]),
      Scan("nii.gz", nip + "_anat", "anatomy", "normalized T1", Some(description), true, true,
           "MRIData", "anatomy", nip + "_anat_file_set",
           [ExternalFile("anatomy", nip + "_anat_external_file", ["anat", "anat_defaced.nii.gz"], true)]) ]
  }

  function FmriScans(nip: string, description: Value): seq<Scan> {
    [ Scan("nii.gz", nip + "_raw_fmri", "raw bold", "raw fMRI", Some(description), true, true,
           "FMRIData", "preprocessed fMRI", nip + "_raw_fmri_file_set",
           [ExternalFile("preprocessed fMRI", nip + "_raw_fmri_external_file", ["fmri", "raw_bold.nii.gz"], true)]),
      Scan("nii.gz", nip + "_fmri", "bold", "preprocessed fMRI", Some(description), true, true,
           "FMRIData", "preprocessed fMRI", nip + "_fmri_file_set",
           [ExternalFile("preprocessed fMRI", nip + "_fmri_external_file", ["fmri", "bold.nii.gz"], true)]) ]
  }

  function MaskScans(nip: string): seq<Scan> {
    [ Scan("nii.gz", nip + "_mask", "mask", "boolean mask", None, true, true,
           "MRIData", "mask", nip + "_mask_file_set",
           [ExternalFile("mask", nip + "_mask_external_file", ["mask.nii.gz"], true)]) ]
  }

  /** A description held in a 'Scan' dict: None is stored as JSON null. */
  function DescriptionValue(d: Option<string>): Value {
    if d.None? then Null else Str(d.value)
  }

  function Baseline(identifier: string, age: Option<int>): Assessment {
    Assessment(identifier, age, "Baseline")
  }

  /** The records parse_subject_dir returns, given the parsed subject.json,
      the parsed behavioural.json, the nip, the fMRI description and the two
      lists of map scans. */
  function SubjectRecords(
    info: SubjectJson, questionnaire: Record, nip: string, fmri: Value,
    cScans: seq<Scan>, tScans: seq<Scan>): ParsedSubject
    requires info.additionalInfo.Keys == ADDITIONAL_INFO
  {
    var age := info.age;
    var questionnaires := [
      QuestionnaireSet(Baseline(nip + "_demographics", age), "demographics", Demographics(info.additionalInfo)),
      QuestionnaireSet(Baseline(nip + "_questionnaire", age), "localizer_questionnaire",
                       LocalizerQuestionnaire(questionnaire))];
    var scans := [
      ScanSet(Baseline(nip + "_anat", age), AnatScans(nip, info.additionalInfo["anatomy"])),
      ScanSet(Baseline(nip + "_fmri", age), FmriScans(nip, fmri)),
      ScanSet(Baseline(nip + "_c_maps", age), cScans),
      ScanSet(Baseline(nip + "_t_maps", age), tScans),
      ScanSet(Baseline(nip + "_mask", age), MaskScans(nip))];
    ParsedSubject(nip, info.family, info.site, info.subject, scans, questionnaires)
  }

  function MapScanSeq(nip: string, listing: seq<string>, kind: MapKind): seq<Scan> {
    var entries := NiftiEntries(listing);
    seq(|entries|, i requires 0 <= i < |entries| => MapScan(nip, entries[i], kind))
  }

  /** parse_subject_dir as a function of the files it reads. The directory
      name is not used: a nip that differs from it is passed over, as in the
      source. */
  function SubjectDir(
    dirName: string, subjectJson: Record, behavioural: Record,
    cListing: seq<string>, tListing: seq<string>,
    issueOrder: seq<string>, seqOrder: seq<string>): Result<ParsedSubject>
  {
    var info :- ParseSubjectJson(subjectJson);
    var questionnaire :- ParseBehaviouralJson(behavioural);
    if !info.nip.Str? then Err(TypeError)
    else
      var nip := info.nip.s;
      var fmri := DescriptionValue(Described(IssueTokens(info.additionalInfo, issueOrder)
                                   + SequenceTokens(info.additionalInfo, seqOrder)));
      Ok(SubjectRecords(info, questionnaire, nip, fmri,
                        MapScanSeq(nip, cListing, CMap), MapScanSeq(nip, tListing, TMap)))
  }

  /** A successful SubjectDir is SubjectRecords of its parsed inputs. */
  lemma SubjectDirParts(
    dirName: string, subjectJson: Record, behavioural: Record,
    cListing: seq<string>, tListing: seq<string>, issueOrder: seq<string>, seqOrder: seq<string>)
    requires SubjectDir(dirName, subjectJson, behavioural, cListing, tListing, issueOrder, seqOrder).Ok?
    ensures ParseSubjectJson(subjectJson).Ok? && ParseBehaviouralJson(behavioural).Ok?
    ensures ParseSubjectJson(subjectJson).value.nip.Str?
    ensures
      var info := ParseSubjectJson(subjectJson).value;
      var nip := info.nip.s;
      var fmri := DescriptionValue(Described(IssueTokens(info.additionalInfo, issueOrder)
                                   + SequenceTokens(info.additionalInfo, seqOrder)));
      SubjectDir(dirName, subjectJson, behavioural, cListing, tListing, issueOrder, seqOrder).value
        == SubjectRecords(info, ParseBehaviouralJson(behavioural).value, nip, fmri,
                          MapScanSeq(nip, cListing, CMap), MapScanSeq(nip, tListing, TMap))
  {
  }

  /** parse_subject_dir, with its two description loops and its two map loops. */
  method ParseSubjectDir(
    dirName: string, subjectJson: Record, behavioural: Record,
    cListing: seq<string>, tListing: seq<string>,
    issueOrder: seq<string>, seqOrder: seq<string>) returns (r: Result<ParsedSubject>)
    requires IsOrderOf(issueOrder, FMRI_ISSUES) && IsOrderOf(seqOrder, SEQUENCE_TYPES)
    ensures r == SubjectDir(dirName, subjectJson, behavioural, cListing, tListing, issueOrder, seqOrder)
  {
    var parsed := ParseSubjectJson(subjectJson);
    if parsed.Err? {
      return Err(parsed.error);
    }
    var info := parsed.value;
    var behaved := ParseBehaviouralJson(behavioural);
    if behaved.Err? {
      return Err(behaved.error);
    }
    if !info.nip.Str? {
      return Err(TypeError);
    }
    var nip := info.nip.s;
    var description := FmriDescription(info.additionalInfo, issueOrder, seqOrder);
    var cScans := MapScans(nip, cListing, CMap);
    var tScans := MapScans(nip, tListing, TMap);
    MapScansAre(cScans, nip, cListing, CMap);
    MapScansAre(tScans, nip, tListing, TMap);
    SubjectDirOk(dirName, subjectJson, behavioural, cListing, tListing, issueOrder, seqOrder);
    r := Ok(SubjectRecords(info, behaved.value, nip, DescriptionValue(description), cScans, tScans));
  }

  lemma MapScansAre(scans: seq<Scan>, nip: string, listing: seq<string>, kind: MapKind)
    requires |scans| == |NiftiEntries(listing)|
    requires forall i :: 0 <= i < |scans| ==> scans[i] == MapScan(nip, NiftiEntries(listing)[i], kind)
    ensures scans == MapScanSeq(nip, listing, kind)
  {
  }

  /** SubjectDir of well-formed inputs is SubjectRecords of their parses. */
  lemma SubjectDirOk(
    dirName: string, subjectJson: Record, behavioural: Record,
    cListing: seq<string>, tListing: seq<string>, issueOrder: seq<string>, seqOrder: seq<string>)
    requires ParseSubjectJson(subjectJson).Ok? && ParseBehaviouralJson(behavioural).Ok?
    requires ParseSubjectJson(subjectJson).value.nip.Str?
    ensures
      var info := ParseSubjectJson(subjectJson).value;
      var nip := info.nip.s;
      var fmri := DescriptionValue(Described(IssueTokens(info.additionalInfo, issueOrder)
                                   + SequenceTokens(info.additionalInfo, seqOrder)));
      SubjectDir(dirName, subjectJson, behavioural, cListing, tListing, issueOrder, seqOrder)
        == Ok(SubjectRecords(info, ParseBehaviouralJson(behavioural).value, nip, fmri,
                             MapScanSeq(nip, cListing, CMap), MapScanSeq(nip, tListing, TMap)))
  {
  }

  /** parse_subject_dir fails exactly when subject.json or behavioural.json is
      malformed or the nip is not a string. */
  lemma SubjectDirFailure(
    dirName: string, subjectJson: Record, behavioural: Record,
    cListing: seq<string>, tListing: seq<string>, issueOrder: seq<string>, seqOrder: seq<string>)
    ensures SubjectDir(dirName, subjectJson, behavioural, cListing, tListing, issueOrder, seqOrder).Ok? <==>
      ParseSubjectJson(subjectJson).Ok? && "date" in behavioural && subjectJson["nip"].Str?
  {
  }

  /** The identifiers of a parsed subject directory: nip plus a fixed suffix
      for every assessment and scan, every assessment at timepoint
      'Baseline'. */
  ghost predicate IdentifiedBy(p: ParsedSubject, nip: string) {
    && p.subject.identifier == Str(nip) && p.subject.codeInStudy == Str(nip)
    && QuestionnairesIdentifiedBy(p, nip) && AssessmentsIdentifiedBy(p, nip) && ScansIdentifiedBy(p, nip)
  }

  ghost predicate QuestionnairesIdentifiedBy(p: ParsedSubject, nip: string) {
    && |p.questionnaires| == 2
    && p.questionnaires[0].assessment == Assessment(nip + "_demographics", p.questionnaires[0].assessment.ageOfSubject, "Baseline")
    && p.questionnaires[1].assessment == Assessment(nip + "_questionnaire", p.questionnaires[1].assessment.ageOfSubject, "Baseline")
  }

  ghost predicate AssessmentsIdentifiedBy(p: ParsedSubject, nip: string) {
    && |p.scans| == 5
    && p.scans[0].assessment == Assessment(nip + "_anat", p.scans[0].assessment.ageOfSubject, "Baseline")
    && p.scans[1].assessment == Assessment(nip + "_fmri", p.scans[1].assessment.ageOfSubject, "Baseline")
    && p.scans[2].assessment == Assessment(nip + "_c_maps", p.scans[2].assessment.ageOfSubject, "Baseline")
    && p.scans[3].assessment == Assessment(nip + "_t_maps", p.scans[3].assessment.ageOfSubject, "Baseline")
    && p.scans[4].assessment == Assessment(nip + "_mask", p.scans[4].assessment.ageOfSubject, "Baseline")
  }

  ghost predicate ScansIdentifiedBy(p: ParsedSubject, nip: string) {
    && |p.scans| == 5
    && |p.scans[0].scans| == 2 && |p.scans[1].scans| == 2 && |p.scans[4].scans| == 1
    && p.scans[0].scans[0].identifier == nip + "_raw_anat"
    && p.scans[0].scans[1].identifier == nip + "_anat"
    && p.scans[1].scans[0].identifier == nip + "_raw_fmri"
    && p.scans[1].scans[1].identifier == nip + "_fmri"
    && p.scans[4].scans[0].identifier == nip + "_mask"
  }

  lemma SubjectRecordsIdentifiers(
    info: SubjectJson, questionnaire: Record, nip: string, fmri: Value,
    cScans: seq<Scan>, tScans: seq<Scan>)
    requires info.additionalInfo.Keys == ADDITIONAL_INFO
    requires info.subject.identifier == info.nip && info.subject.codeInStudy == info.nip && info.nip == Str(nip)
    ensures SubjectRecords(info, questionnaire, nip, fmri, cScans, tScans).nip == nip
    ensures IdentifiedBy(SubjectRecords(info, questionnaire, nip, fmri, cScans, tScans), nip)
  {
    SubjectRecordsQuestionnaires(info, questionnaire, nip, fmri, cScans, tScans);
    SubjectRecordsAssessments(info, questionnaire, nip, fmri, cScans, tScans);
    SubjectRecordsScans(info, questionnaire, nip, fmri, cScans, tScans);
  }

  lemma SubjectRecordsQuestionnaires(
    info: SubjectJson, questionnaire: Record, nip: string, fmri: Value,
    cScans: seq<Scan>, tScans: seq<Scan>)
    requires info.additionalInfo.Keys == ADDITIONAL_INFO
    ensures QuestionnairesIdentifiedBy(SubjectRecords(info, questionnaire, nip, fmri, cScans, tScans), nip)
  {
  }

  lemma SubjectRecordsAssessments(
    info: SubjectJson, questionnaire: Record, nip: string, fmri: Value,
    cScans: seq<Scan>, tScans: seq<Scan>)
    requires info.additionalInfo.Keys == ADDITIONAL_INFO
    ensures AssessmentsIdentifiedBy(SubjectRecords(info, questionnaire, nip, fmri, cScans, tScans), nip)
  {
  }

  lemma SubjectRecordsScans(
    info: SubjectJson, questionnaire: Record, nip: string, fmri: Value,
    cScans: seq<Scan>, tScans: seq<Scan>)
    requires info.additionalInfo.Keys == ADDITIONAL_INFO
    ensures ScansIdentifiedBy(SubjectRecords(info, questionnaire, nip, fmri, cScans, tScans), nip)
  {
  }

  /** A parsed subject directory takes its nip from subject.json and derives
      every identifier from it. */
  lemma SubjectDirIdentifiers(
    dirName: string, subjectJson: Record, behavioural: Record,
    cListing: seq<string>, tListing: seq<string>, issueOrder: seq<string>, seqOrder: seq<string>)
    requires SubjectDir(dirName, subjectJson, behavioural, cListing, tListing, issueOrder, seqOrder).Ok?
    ensures var p := SubjectDir(dirName, subjectJson, behavioural, cListing, tListing, issueOrder, seqOrder).value;
      subjectJson["nip"] == Str(p.nip) && IdentifiedBy(p, p.nip)
  {
    SubjectDirParts(dirName, subjectJson, behavioural, cListing, tListing, issueOrder, seqOrder);
    var info := ParseSubjectJson(subjectJson).value;
    var nip := info.nip.s;
    var fmri := DescriptionValue(Described(IssueTokens(info.additionalInfo, issueOrder)
                                 + SequenceTokens(info.additionalInfo, seqOrder)));
    SubjectRecordsIdentifiers(info, ParseBehaviouralJson(behavioural).value, nip, fmri,
                              MapScanSeq(nip, cListing, CMap), MapScanSeq(nip, tListing, TMap));
  }

  /** The subject's demographics questionnaire holds exactly the DEMOGRAPHICS
      keys of subject.json, and the localizer questionnaire is behavioural.json
      without 'date' and with language French. */
  lemma SubjectDirQuestionnaires(
    dirName: string, subjectJson: Record, behavioural: Record,
    cListing: seq<string>, tListing: seq<string>, issueOrder: seq<string>, seqOrder: seq<string>)
    requires SubjectDir(dirName, subjectJson, behavioural, cListing, tListing, issueOrder, seqOrder).Ok?
    ensures var p := SubjectDir(dirName, subjectJson, behavioural, cListing, tListing, issueOrder, seqOrder).value;
      var demographics := p.questionnaires[0].answers;
      var localizer := p.questionnaires[1].answers;
      && demographics.Keys == DEMOGRAPHICS
      && (forall k :: k in DEMOGRAPHICS ==> demographics[k] == subjectJson[k])
      && localizer.Keys == behavioural.Keys - {"date"} + {"language"}
      && localizer["language"] == Str("French")
      && (forall k :: k in behavioural && k != "date" && k != "language" ==> localizer[k] == behavioural[k])
  {
    SubjectDirParts(dirName, subjectJson, behavioural, cListing, tListing, issueOrder, seqOrder);
  }

  /** The c-map and t-map scan sets hold one scan per '.nii.gz' entry of their
      listing, in listing order. */
  lemma SubjectDirMaps(
    dirName: string, subjectJson: Record, behavioural: Record,
    cListing: seq<string>, tListing: seq<string>, issueOrder: seq<string>, seqOrder: seq<string>)
    requires SubjectDir(dirName, subjectJson, behavioural, cListing, tListing, issueOrder, seqOrder).Ok?
    ensures var p := SubjectDir(dirName, subjectJson, behavioural, cListing, tListing, issueOrder, seqOrder).value;
      && |p.scans[2].scans| == |NiftiEntries(cListing)|
      && |p.scans[3].scans| == |NiftiEntries(tListing)|
      && (forall i :: 0 <= i < |p.scans[2].scans| ==> p.scans[2].scans[i] == MapScan(p.nip, NiftiEntries(cListing)[i], CMap))
      && (forall i :: 0 <= i < |p.scans[3].scans| ==> p.scans[3].scans[i] == MapScan(p.nip, NiftiEntries(tListing)[i], TMap))
  {
    SubjectDirParts(dirName, subjectJson, behavioural, cListing, tListing, issueOrder, seqOrder);
  }

  // ---------------------------------------------------------------------------
  // parse_subjects: a directory of subjects

  datatype SubjectFiles = SubjectFiles(subjectJson: Record, behavioural: Record, cMaps: seq<string>, tMaps: seq<string>)

  /** One entry of the root directory listing. */
  datatype Entry = Entry(name: string, isDir: bool, files: SubjectFiles)

  datatype Group = Group(identifier: Value, name: Value, groupType: string, members: seq<string>)

  /** The four dicts parse_subjects returns; family and site keys are compared
      as Python dict keys (DictKey). */
  datatype Cohort = Cohort(
    subjects: map<string, Subject>,
    groups: map<Value, Group>,
    scans: map<Value, map<string, seq<ScanSet>>>,
    questionnaires: map<Value, map<string, seq<QuestionnaireSet>>>)

  /** The parsed subject directories of a listing, in listing order; the first
      failing directory aborts. */
  function ParseEntries(entries: seq<Entry>, issueOrder: seq<string>, seqOrder: seq<string>): Result<seq<ParsedSubject>>
    decreases |entries|
  {
    if entries == [] then Ok([])
    else
      var ps :- ParseEntries(entries[..|entries| - 1], issueOrder, seqOrder);
      var e := entries[|entries| - 1];
      if !e.isDir then Ok(ps)
      else
        var p :- SubjectDir(e.name, e.files.subjectJson, e.files.behavioural, e.files.cMaps, e.files.tMaps,
                            issueOrder, seqOrder);
        Ok(ps + [p])
  }

  function SubjectsOf(ps: seq<ParsedSubject>): map<string, Subject>
    decreases |ps|
  {
    if ps == [] then map[]
    else
      var p := ps[|ps| - 1];
      SubjectsOf(ps[..|ps| - 1])[p.nip := p.subject]
  }

  function AddMember(groups: map<Value, Group>, family: Value, nip: string): map<Value, Group> {
    var k := DictKey(family);
    if k in groups then groups[k := groups[k].(members := groups[k].members + [nip])]
    else groups[k := Group(family, family, "family", [nip])]
  }

  function GroupsOf(ps: seq<ParsedSubject>): map<Value, Group>
    decreases |ps|
  {
    if ps == [] then map[]
    else
      var p := ps[|ps| - 1];
      AddMember(GroupsOf(ps[..|ps| - 1]), p.family, p.nip)
  }

  function Put<T>(m: map<Value, map<string, T>>, site: Value, nip: string, v: T): map<Value, map<string, T>> {
    var k := DictKey(site);
    m[k := (if k in m then m[k] else map[])[nip := v]]
  }

  function ScansOf(ps: seq<ParsedSubject>): map<Value, map<string, seq<ScanSet>>>
    decreases |ps|
  {
    if ps == [] then map[]
    else
      var p := ps[|ps| - 1];
      Put(ScansOf(ps[..|ps| - 1]), p.site, p.nip, p.scans)
  }

  function QuestionnairesOf(ps: seq<ParsedSubject>): map<Value, map<string, seq<QuestionnaireSet>>>
    decreases |ps|
  {
    if ps == [] then map[]
    else
      var p := ps[|ps| - 1];
      Put(QuestionnairesOf(ps[..|ps| - 1]), p.site, p.nip, p.questionnaires)
  }

  function Assemble(ps: seq<ParsedSubject>): Cohort {
    Cohort(SubjectsOf(ps), GroupsOf(ps), ScansOf(ps), QuestionnairesOf(ps))
  }

  lemma ParseEntriesPrefixError(entries: seq<Entry>, i: nat, issueOrder: seq<string>, seqOrder: seq<string>)
    requires i <= |entries|
    requires ParseEntries(entries[..i], issueOrder, seqOrder).Err?
    ensures ParseEntries(entries, issueOrder, seqOrder) == ParseEntries(entries[..i], issueOrder, seqOrder)
    decreases |entries| - i
  {
    if i < |entries| {
      assert entries[..i + 1][..i] == entries[..i];
      ParseEntriesPrefixError(entries, i + 1, issueOrder, seqOrder);
    } else {
      assert entries[..i] == entries;
    }
  }

  /** `if site not in m: m[site] = {}` followed by `m[site][nip] = v`. */
  lemma PutInPlace<T>(m: map<Value, map<string, T>>, site: Value, nip: string, v: T)
    ensures var k := DictKey(site);
      var m1 := if k !in m then m[k := map[]] else m;
      m1[k := m1[k][nip := v]] == Put(m, site, nip, v)
  {
  }

  lemma AssembleStep(ps: seq<ParsedSubject>, p: ParsedSubject)
    ensures SubjectsOf(ps + [p]) == SubjectsOf(ps)[p.nip := p.subject]
    ensures GroupsOf(ps + [p]) == AddMember(GroupsOf(ps), p.family, p.nip)
    ensures ScansOf(ps + [p]) == Put(ScansOf(ps), p.site, p.nip, p.scans)
    ensures QuestionnairesOf(ps + [p]) == Put(QuestionnairesOf(ps), p.site, p.nip, p.questionnaires)
  {
    assert (ps + [p])[..|ps|] == ps;
  }

  /** parse_subjects: skip non-directories, parse each subject directory and
      file its results under its nip, its family and its site. */
  method ParseSubjects(entries: seq<Entry>, issueOrder: seq<string>, seqOrder: seq<string>) returns (r: Result<Cohort>)
    requires IsOrderOf(issueOrder, FMRI_ISSUES) && IsOrderOf(seqOrder, SEQUENCE_TYPES)
    ensures ParseEntries(entries, issueOrder, seqOrder).Err? ==> r == Err(ParseEntries(entries, issueOrder, seqOrder).error)
    ensures ParseEntries(entries, issueOrder, seqOrder).Ok? ==> r == Ok(Assemble(ParseEntries(entries, issueOrder, seqOrder).value))
  {
    var subjects: map<string, Subject> := map[];
    var groups: map<Value, Group> := map[];
    var scans: map<Value, map<string, seq<ScanSet>>> := map[];
    var questionnaires: map<Value, map<string, seq<QuestionnaireSet>>> := map[];
    ghost var ps: seq<ParsedSubject> := [];
    for i := 0 to |entries|
      invariant ParseEntries(entries[..i], issueOrder, seqOrder) == Ok(ps)
      invariant subjects == SubjectsOf(ps) && groups == GroupsOf(ps)
      invariant scans == ScansOf(ps) && questionnaires == QuestionnairesOf(ps)
    {
      var e := entries[i];
      assert entries[..i + 1][..i] == entries[..i];
      if !e.isDir {
        continue;
      }
      var parsed := ParseSubjectDir(e.name, e.files.subjectJson, e.files.behavioural,
                                    e.files.cMaps, e.files.tMaps, issueOrder, seqOrder);
      if parsed.Err? {
        ParseEntriesPrefixError(entries, i + 1, issueOrder, seqOrder);
        return Err(parsed.error);
      }
      var p := parsed.value;
      assert ParseEntries(entries[..i + 1], issueOrder, seqOrder) == Ok(ps + [p]);
      AssembleStep(ps, p);
      subjects := subjects[p.nip := p.subject];
      var family := DictKey(p.family);
      if family in groups {
        groups := groups[family := groups[family].(members := groups[family].members + [p.nip])];
      } else {
        groups := groups[family := Group(p.family, p.family, "family", [p.nip])];
      }
      var site := DictKey(p.site);
      ghost var scans0, questionnaires0 := scans, questionnaires;
      if site !in scans {
        scans := scans[site := map[]];
      }
      scans := scans[site := scans[site][p.nip := p.scans]];
      PutInPlace(scans0, p.site, p.nip, p.scans);
      if site !in questionnaires {
        questionnaires := questionnaires[site := map[]];
      }
      questionnaires := questionnaires[site := questionnaires[site][p.nip := p.questionnaires]];
      PutInPlace(questionnaires0, p.site, p.nip, p.questionnaires);
      ps := ps + [p];
    }
    assert entries[..|entries|] == entries;
    r := Ok(Cohort(subjects, groups, scans, questionnaires));
  }

  /** The nips of the subjects of one family, in encounter order. */
  function MembersOf(ps: seq<ParsedSubject>, family: Value): seq<string>
    decreases |ps|
  {
    if ps == [] then []
    else
      var p := ps[|ps| - 1];
      MembersOf(ps[..|ps| - 1], family) + (if DictKey(p.family) == family then [p.nip] else [])
  }

  /** i is the first subject of its family. */
  predicate FirstOfFamily(ps: seq<ParsedSubject>, i: int) {
    0 <= i < |ps| && forall j :: 0 <= j < i ==> DictKey(ps[j].family) != DictKey(ps[i].family)
  }

  /** The family groups: one per family met, created with identifier and name
      the family of its first subject and type 'family', holding the nips of
      the family's subjects in encounter order. */
  lemma GroupsOfSpec(ps: seq<ParsedSubject>)
    ensures forall k :: k in GroupsOf(ps) <==> exists i :: 0 <= i < |ps| && DictKey(ps[i].family) == k
    ensures forall k :: k in GroupsOf(ps) ==>
      && GroupsOf(ps)[k].members == MembersOf(ps, k)
      && GroupsOf(ps)[k].groupType == "family"
      && GroupsOf(ps)[k].name == GroupsOf(ps)[k].identifier
      && exists i :: FirstOfFamily(ps, i) && ps[i].family == GroupsOf(ps)[k].identifier && DictKey(ps[i].family) == k
  {
    forall k
      ensures k in GroupsOf(ps) <==> exists i :: 0 <= i < |ps| && DictKey(ps[i].family) == k
    {
      GroupsOfKey(ps, k);
    }
    forall k | k in GroupsOf(ps)
      ensures GroupsOf(ps)[k].members == MembersOf(ps, k)
      ensures GroupsOf(ps)[k].groupType == "family" && GroupsOf(ps)[k].name == GroupsOf(ps)[k].identifier
      ensures exists i :: FirstOfFamily(ps, i) && ps[i].family == GroupsOf(ps)[k].identifier && DictKey(ps[i].family) == k
    {
      GroupsOfEntry(ps, k);
      GroupsOfFirst(ps, k);
    }
  }

  /** A family has a group exactly when one of the subjects belongs to it. */
  lemma {:induction false} GroupsOfKey(ps: seq<ParsedSubject>, k: Value)
    ensures k in GroupsOf(ps) <==> exists i :: 0 <= i < |ps| && DictKey(ps[i].family) == k
    decreases |ps|
  {
    if ps != [] {
      var init := ps[..|ps| - 1];
      GroupsOfKey(init, k);
      if k in GroupsOf(init) {
        var i :| 0 <= i < |init| && DictKey(init[i].family) == k;
        assert ps[i] == init[i];
      }
      if exists i :: 0 <= i < |ps| && DictKey(ps[i].family) == k {
        var i :| 0 <= i < |ps| && DictKey(ps[i].family) == k;
        if i < |init| {
          assert init[i] == ps[i];
        }
      }
    }
  }

  /** A group holds its family's nips in order, has type 'family' and is
      named by its identifier. */
  lemma {:induction false} GroupsOfEntry(ps: seq<ParsedSubject>, k: Value)
    requires k in GroupsOf(ps)
    ensures GroupsOf(ps)[k].members == MembersOf(ps, k)
    ensures GroupsOf(ps)[k].groupType == "family" && GroupsOf(ps)[k].name == GroupsOf(ps)[k].identifier
    decreases |ps|
  {
    var init := ps[..|ps| - 1];
    if k in GroupsOf(init) {
      GroupsOfEntry(init, k);
    } else {
      GroupsOfKey(init, k);
      MembersOfAbsent(init, k);
    }
  }

  /** A group's identifier is the family value of its first subject. */
  lemma {:induction false} GroupsOfFirst(ps: seq<ParsedSubject>, k: Value)
    requires k in GroupsOf(ps)
    ensures exists i :: FirstOfFamily(ps, i) && ps[i].family == GroupsOf(ps)[k].identifier && DictKey(ps[i].family) == k
    decreases |ps|
  {
    var init := ps[..|ps| - 1];
    if k in GroupsOf(init) {
      GroupsOfFirst(init, k);
      var i :| FirstOfFamily(init, i) && init[i].family == GroupsOf(init)[k].identifier && DictKey(init[i].family) == k;
      FirstOfFamilyGrows(ps, i);
      AddMemberKeeps(GroupsOf(init), ps[|ps| - 1].family, ps[|ps| - 1].nip, k);
    } else {
      GroupsOfKey(init, k);
      forall j | 0 <= j < |init| ensures DictKey(ps[j].family) != k {
        assert ps[j] == init[j];
      }
      assert FirstOfFamily(ps, |init|);
    }
  }

  /** The first subject of a family stays first when a subject is appended. */
  lemma FirstOfFamilyGrows(ps: seq<ParsedSubject>, i: int)
    requires ps != [] && FirstOfFamily(ps[..|ps| - 1], i)
    ensures FirstOfFamily(ps, i) && ps[i] == ps[..|ps| - 1][i]
  {
    var init := ps[..|ps| - 1];
    forall j | 0 <= j < i ensures DictKey(ps[j].family) != DictKey(ps[i].family) {
      assert ps[j] == init[j] && ps[i] == init[i];
    }
  }

  /** Adding a member keeps the identifier of a group already present. */
  lemma AddMemberKeeps(groups: map<Value, Group>, family: Value, nip: string, k: Value)
    requires k in groups
    ensures k in AddMember(groups, family, nip) && AddMember(groups, family, nip)[k].identifier == groups[k].identifier
  {
  }

  lemma {:induction false} MembersOfAbsent(ps: seq<ParsedSubject>, family: Value)
    requires forall j :: 0 <= j < |ps| ==> DictKey(ps[j].family) != family
    ensures MembersOf(ps, family) == []
    decreases |ps|
  {
    if ps != [] {
      MembersOfAbsent(ps[..|ps| - 1], family);
    }
  }

  /** i is the last subject with its site key and nip. */
  predicate LastAtSite(ps: seq<ParsedSubject>, i: int) {
    0 <= i < |ps| &&
    forall j :: i < j < |ps| ==> !(DictKey(ps[j].site) == DictKey(ps[i].site) && ps[j].nip == ps[i].nip)
  }

  /** Which entries a Put adds or overwrites, and what each entry holds. */
  lemma PutGet<T>(m: map<Value, map<string, T>>, site: Value, nip: string, v: T, k: Value, n: string)
    ensures (k in Put(m, site, nip, v) && n in Put(m, site, nip, v)[k]) <==>
      ((k == DictKey(site) && n == nip) || (k in m && n in m[k]))
    ensures k in Put(m, site, nip, v) && n in Put(m, site, nip, v)[k] ==>
      Put(m, site, nip, v)[k][n] == if k == DictKey(site) && n == nip then v else m[k][n]
  {
  }

  /** scans[site][nip] holds the scans of the last subject parsed with that
      site and nip, and the table has no other entries. */
  lemma ScansOfSpec(ps: seq<ParsedSubject>)
    ensures forall k, nip :: k in ScansOf(ps) && nip in ScansOf(ps)[k] ==>
      exists i :: 0 <= i < |ps| && DictKey(ps[i].site) == k && ps[i].nip == nip
    ensures forall i :: LastAtSite(ps, i) ==>
      DictKey(ps[i].site) in ScansOf(ps) && ps[i].nip in ScansOf(ps)[DictKey(ps[i].site)]
      && ScansOf(ps)[DictKey(ps[i].site)][ps[i].nip] == ps[i].scans
  {
    forall k, nip | k in ScansOf(ps) && nip in ScansOf(ps)[k]
      ensures exists i :: 0 <= i < |ps| && DictKey(ps[i].site) == k && ps[i].nip == nip
    {
      ScansOfEntry(ps, k, nip);
    }
    forall i | LastAtSite(ps, i)
      ensures DictKey(ps[i].site) in ScansOf(ps) && ps[i].nip in ScansOf(ps)[DictKey(ps[i].site)]
      ensures ScansOf(ps)[DictKey(ps[i].site)][ps[i].nip] == ps[i].scans
    {
      ScansOfLast(ps, i);
    }
  }

  lemma {:induction false} ScansOfEntry(ps: seq<ParsedSubject>, k: Value, nip: string)
    requires k in ScansOf(ps) && nip in ScansOf(ps)[k]
    ensures exists i :: 0 <= i < |ps| && DictKey(ps[i].site) == k && ps[i].nip == nip
    decreases |ps|
  {
    var init := ps[..|ps| - 1];
    var p := ps[|ps| - 1];
    PutGet(ScansOf(init), p.site, p.nip, p.scans, k, nip);
    if !(k == DictKey(p.site) && nip == p.nip) {
      ScansOfEntry(init, k, nip);
      var i :| 0 <= i < |init| && DictKey(init[i].site) == k && init[i].nip == nip;
      assert ps[i] == init[i];
    }
  }

  lemma {:induction false} ScansOfLast(ps: seq<ParsedSubject>, i: int)
    requires LastAtSite(ps, i)
    ensures DictKey(ps[i].site) in ScansOf(ps) && ps[i].nip in ScansOf(ps)[DictKey(ps[i].site)]
    ensures ScansOf(ps)[DictKey(ps[i].site)][ps[i].nip] == ps[i].scans
    decreases |ps|
  {
    var init := ps[..|ps| - 1];
    var p := ps[|ps| - 1];
    PutGet(ScansOf(init), p.site, p.nip, p.scans, DictKey(ps[i].site), ps[i].nip);
    if i < |init| {
      assert init[i] == ps[i];
      assert LastAtSite(init, i);
      ScansOfLast(init, i);
    }
  }

  /** questionnaires[site][nip] holds the questionnaires of the last subject
      parsed with that site and nip, and the table has no other entries. */
  lemma QuestionnairesOfSpec(ps: seq<ParsedSubject>)
    ensures forall k, nip :: k in QuestionnairesOf(ps) && nip in QuestionnairesOf(ps)[k] ==>
      exists i :: 0 <= i < |ps| && DictKey(ps[i].site) == k && ps[i].nip == nip
    ensures forall i :: LastAtSite(ps, i) ==>
      DictKey(ps[i].site) in QuestionnairesOf(ps) && ps[i].nip in QuestionnairesOf(ps)[DictKey(ps[i].site)]
      && QuestionnairesOf(ps)[DictKey(ps[i].site)][ps[i].nip] == ps[i].questionnaires
  {
    forall k, nip | k in QuestionnairesOf(ps) && nip in QuestionnairesOf(ps)[k]
      ensures exists i :: 0 <= i < |ps| && DictKey(ps[i].site) == k && ps[i].nip == nip
    {
      QuestionnairesOfEntry(ps, k, nip);
    }
    forall i | LastAtSite(ps, i)
      ensures DictKey(ps[i].site) in QuestionnairesOf(ps) && ps[i].nip in QuestionnairesOf(ps)[DictKey(ps[i].site)]
      ensures QuestionnairesOf(ps)[DictKey(ps[i].site)][ps[i].nip] == ps[i].questionnaires
    {
      QuestionnairesOfLast(ps, i);
    }
  }

  lemma {:induction false} QuestionnairesOfEntry(ps: seq<ParsedSubject>, k: Value, nip: string)
    requires k in QuestionnairesOf(ps) && nip in QuestionnairesOf(ps)[k]
    ensures exists i :: 0 <= i < |ps| && DictKey(ps[i].site) == k && ps[i].nip == nip
    decreases |ps|
  {
    var init := ps[..|ps| - 1];
    var p := ps[|ps| - 1];
    PutGet(QuestionnairesOf(init), p.site, p.nip, p.questionnaires, k, nip);
    if !(k == DictKey(p.site) && nip == p.nip) {
      QuestionnairesOfEntry(init, k, nip);
      var i :| 0 <= i < |init| && DictKey(init[i].site) == k && init[i].nip == nip;
      assert ps[i] == init[i];
    }
  }

  lemma {:induction false} QuestionnairesOfLast(ps: seq<ParsedSubject>, i: int)
    requires LastAtSite(ps, i)
    ensures DictKey(ps[i].site) in QuestionnairesOf(ps) && ps[i].nip in QuestionnairesOf(ps)[DictKey(ps[i].site)]
    ensures QuestionnairesOf(ps)[DictKey(ps[i].site)][ps[i].nip] == ps[i].questionnaires
    decreases |ps|
  {
    var init := ps[..|ps| - 1];
    var p := ps[|ps| - 1];
    PutGet(QuestionnairesOf(init), p.site, p.nip, p.questionnaires, DictKey(ps[i].site), ps[i].nip);
    if i < |init| {
      assert init[i] == ps[i];
      assert LastAtSite(init, i);
      QuestionnairesOfLast(init, i);
    }
  }

  /** Only directory entries are parsed, in listing order. */
  lemma {:induction false} ParseEntriesSkipsFiles(entries: seq<Entry>, issueOrder: seq<string>, seqOrder: seq<string>)
    requires ParseEntries(entries, issueOrder, seqOrder).Ok?
    ensures |ParseEntries(entries, issueOrder, seqOrder).value| == |DirIndices(entries)|
    decreases |entries|
  {
    if entries != [] {
      var init := entries[..|entries| - 1];
      ParseEntriesStep(entries, issueOrder, seqOrder);
      ParseEntriesSkipsFiles(init, issueOrder, seqOrder);
      DirIndicesStep(entries);
    }
  }

  /** The positions of the directories of a listing. */
  ghost function DirIndices(entries: seq<Entry>): set<int> {
    set i | 0 <= i < |entries| && entries[i].isDir
  }

  lemma ParseEntriesStep(entries: seq<Entry>, issueOrder: seq<string>, seqOrder: seq<string>)
    requires entries != [] && ParseEntries(entries, issueOrder, seqOrder).Ok?
    ensures ParseEntries(entries[..|entries| - 1], issueOrder, seqOrder).Ok?
    ensures |ParseEntries(entries, issueOrder, seqOrder).value| ==
      |ParseEntries(entries[..|entries| - 1], issueOrder, seqOrder).value| + (if entries[|entries| - 1].isDir then 1 else 0)
  {
  }

  lemma DirIndicesStep(entries: seq<Entry>)
    requires entries != []
    ensures |DirIndices(entries)| ==
      |DirIndices(entries[..|entries| - 1])| + (if entries[|entries| - 1].isDir then 1 else 0)
  {
    var n := |entries| - 1;
    var before := DirIndices(entries[..n]);
    assert before == set i | 0 <= i < n && entries[i].isDir;
    assert n !in before;
    if entries[n].isDir {
      assert DirIndices(entries) == before + {n};
    } else {
      assert DirIndices(entries) == before;
    }
  }

  // ---------------------------------------------------------------------------
  // parse_genetics

  datatype GeneticsRecord = GeneticsRecord(
    assessmentIdentifier: string, timepoint: string,
    measureIdentifier: string, measureType: string, format: string, chromset: string)

  /** parse_genetics over the rows of the FAM file: one record per row, in
      row order; a row with fewer than two columns raises IndexError. */
  method ParseGenetics(rows: seq<seq<string>>) returns (r: Result<seq<GeneticsRecord>>)
    ensures r.Ok? <==> forall i :: 0 <= i < |rows| ==> |rows[i]| >= 2
    ensures r.Err? ==> exists i :: (0 <= i < |rows| && |rows[i]| < 2 && r.error == IndexError(i)
      && forall j :: 0 <= j < i ==> |rows[j]| >= 2)
    ensures r.Ok? ==> |r.value| == |rows| && forall i :: 0 <= i < |rows| ==>
      && r.value[i].assessmentIdentifier == rows[i][1] + "_genetics"
      && r.value[i].timepoint == "Baseline"
      && r.value[i].measureIdentifier == rows[i][1] + "_genomic_measure"
      && r.value[i].measureType == "SNP" && r.value[i].format == "plink" && r.value[i].chromset == "all"
  {
    var genetics: seq<GeneticsRecord> := [];
    for i := 0 to |rows|
      invariant forall j :: 0 <= j < i ==> |rows[j]| >= 2
      invariant |genetics| == i
      invariant forall j :: 0 <= j < i ==>
        genetics[j] == GeneticsRecord(rows[j][1] + "_genetics", "Baseline", rows[j][1] + "_genomic_measure", "SNP", "plink", "all")
    {
      var row := rows[i];
      if |row| < 2 {
        return Err(IndexError(i));
      }
      var nip := row[1];
      genetics := genetics + [GeneticsRecord(nip + "_genetics", "Baseline", nip + "_genomic_measure", "SNP", "plink", "all")];
    }
    r := Ok(genetics);
  }
}
