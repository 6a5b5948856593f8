# Localizer importers: the record-mapping layer

The Localizer database is loaded by two import scripts.

- `importers/json_localizer.py` reads a directory of subject
  sub-directories and writes entity records as JSON:
  - `subject.json` and `behavioural.json` per subject;
  - the `c_maps` and `t_maps` listings;
  - a FAM file of genotyped subjects.
- `importers/localizer.py` is the older direct-load version. It maps the
  same files straight into a CubicWeb object store.

This project models the part of both scripts that decides *what* records
come out:
- the subject, center, device, assessment, scan, map, mask, questionnaire,
  answer and genomic-measure records;
- the identifiers built from a subject's nip or exam code;
- the fMRI scan description;
- the grouping of subjects into families and per-site tables;
- two pieces of the `__main__` block of `importers/localizer.py`:
  - the caches that keep one Center, one Device and one ScoreDefinition per
    name;
  - the periodic flush of the SNP loop.

The model is a set of Dafny modules:

- `Values`: parsed JSON scalars (`Null | Bool | Int | Str`), Python's
  truthiness, `str()`, `int()`, dict-key equality (`True == 1`), and the
  string operations the scripts use (`replace`, `split(..)[0]`, `join`).
- `Ordering`: Python's string order and `sorted(d.keys())`. `SortedKeys` is
  a selection sort proved equal to the specification `SortedSeq`, which is
  unique.
- `JsonLocalizer`: `parse_subject_json`, `parse_behavioural_json`, the
  record-building parts of `parse_subject_dir`, `parse_subjects` and
  `parse_genetics`.
  - Loops that accumulate become methods proved against a function: the
    fMRI description, the map listings and the subject-directory loop. The
    FAM loop states its properties directly.
  - The `set` iteration order of `FMRI_ISSUES` and `SEQUENCE_TYPES` is a
    parameter that must enumerate the set.
- `Localizer`: the `import_*` mappers of `importers/localizer.py`.
  - Each reads an already parsed `subject.json` or `behavioural.json`
    record.
  - A missing key is a `KeyError` naming the key the script would fail on.
  - The tie to `JsonLocalizer` is proved where the two scripts describe
    the same thing: gender and handedness tables, the fMRI description,
    the mask identifier.
- `Store`: the object store reduced to fresh eids and a log of creations,
  relations and flushes.
- `LocalizerMain`: the SNP loop and a `Loader` class holding the `centers`,
  `devices` and `score_defs` caches.
  - The class invariant says each cache holds exactly the names created in
    the store for its entity type, each created once, with the cached eid.

Where the two scripts or their comments disagree with the code, the model
follows the code:
- `import_neuroimaging` builds identifiers from `info['exam']`, not from
  the nip.
- The anatomy label reads the module-level `normalized`, the main loop's
  variable, rather than `norm_prep`. Here it is a separate parameter. At
  the only call the loop passes the same value as `norm_prep`.
- In `parse_subject_dir`, a t map's external resource is named `c map` and
  points into `c_maps`.
- The nip/directory-name mismatch is ignored.
- An unknown site makes the main loop fail with `KeyError('name')` in the
  Center block, before the Device block runs. `CacheDevice` on its own
  fails with `KeyError('hosted_by')` for such a device.
- When several additional-info keys are missing, the model reports the
  first in declaration order; Python's choice depends on set order.

## Model

| member | source | states |
|---|---|---|
| Values.DictKey | importers/json_localizer.py:555-569 | families and sites used as dict keys: a boolean collapses to the integer 1 or 0 it hashes as, every other value is its own key, and no key is a boolean |
| Values.DictKeySameEntry | importers/json_localizer.py:555-569 | two values land in the same dict entry exactly when they are equal or one is a boolean and the other the integer it hashes as |
| Values.Get | importers/localizer.py:66-68 | `info.get(k)` is the stored value when k is present and None otherwise |
| Values.FirstMissing | importers/localizer.py:59-65 | the key a KeyError names is one that the access order lists and the record lacks |
| Values.FirstMissingAt | importers/localizer.py:59-65 | when every key read before position n is present and the one at n is not, the KeyError names exactly that key |
| Values.FirstMissingAfter | importers/localizer.py:136-172 | keys already read and found do not change which later key the KeyError names |
| Values.ParseInt | importers/json_localizer.py:85-86 | `int(s)` on a string succeeds exactly on an optionally signed, non-empty run of decimal digits |
| Values.DigitsValueOfNatToString | importers/json_localizer.py:85-86 | reading back the decimal digits of n gives n |
| Values.ParseIntOfIntToString | importers/json_localizer.py:85-86 | `int(str(n)) == n` for every integer n |
| Values.PyStr | importers/json_localizer.py:285-287 | `str(v)`: a string is itself, None prints as `None`, booleans as `True`/`False` |
| Values.ReplaceChar | importers/json_localizer.py:371-372 | `replace(a, b)` on one character keeps the length, turns each `a` into `b` and keeps every other character; with `a != b` no `a` is left |
| Values.RemoveAll | importers/json_localizer.py:370 | `replace('.nii.gz', '')` never lengthens the name and leaves a name without `.nii.gz` unchanged |
| Values.RemoveAllSuffix | importers/json_localizer.py:366-370 | a name that ends in `.nii.gz` and has no other occurrence of it loses exactly that suffix |
| Values.Before | importers/localizer.py:184-185 | `split(sep)[0]` is a prefix of the name with no occurrence of sep inside it, and sep follows it unless it is the whole name |
| Values.JoinNonEmpty | importers/json_localizer.py:281-293 | tokens joined after a non-empty first token give a non-empty description |
| Ordering.LessIrreflexive | importers/localizer.py:235-236 | no key sorts before itself |
| Ordering.LessTransitive | importers/localizer.py:235-236 | the string order is transitive |
| Ordering.LessTotal | importers/localizer.py:235-236 | of two different keys one sorts first |
| Ordering.LessAsymmetric | importers/localizer.py:235-236 | two keys never sort before each other |
| Ordering.Least | importers/localizer.py:235-236 | the least key is a key and sorts before every other key |
| Ordering.LeastExists | importers/localizer.py:235-236 | every non-empty key set has a least key |
| Ordering.LeastInsert | importers/localizer.py:235-236 | adding a key makes the smaller of it and the old least key the new least key |
| Ordering.SortedSeq | importers/localizer.py:235-236 | `sorted(keys)` is strictly ascending, holds exactly the keys, one entry per key |
| Ordering.SortedUnique | importers/localizer.py:235-236 | any strictly ascending sequence of exactly the keys is `sorted(keys)` |
| Ordering.SortedSeqUnfold | importers/localizer.py:235-236 | `sorted(keys)` is the least key followed by the sort of the others |
| Ordering.SortedHeadLeast | importers/localizer.py:235-236 | the head of an ascending enumeration is the least key |
| Ordering.SortedTail | importers/localizer.py:235-236 | the tail of an ascending enumeration enumerates the other keys in ascending order |
| Ordering.MinOf | importers/localizer.py:235-236 | a linear scan of a non-empty key set finds its least key |
| Ordering.SortedKeys | importers/localizer.py:235-236 | repeated extraction of the least key computes `sorted(keys)` |
| JsonLocalizer.Gender | importers/json_localizer.py:16-20 | gender is male exactly for '1', female exactly for '2', otherwise unknown |
| JsonLocalizer.Handedness | importers/json_localizer.py:22-27 | handedness is right, left or ambidextrous exactly for the three known phrases, otherwise unknown |
| JsonLocalizer.Age | importers/json_localizer.py:84-86 | age stays None exactly when null, an int is kept, a string is read with `int()` and fails with ValueError when it is not a number |
| JsonLocalizer.AgeOfDecimalString | importers/json_localizer.py:84-86 | an age written as the decimal string of n becomes n |
| JsonLocalizer.ParseSubjectJson | importers/json_localizer.py:58-98 | succeeds exactly when nip, sex, age (a number or null), laterality, family, site, protocol and every additional-info key are present; otherwise a KeyError on an absent key; the subject's identifier and code_in_study are the nip, gender and handedness come from the tables, additional_info has exactly the additional-info keys with the input's values |
| JsonLocalizer.SubjectJsonFields | importers/json_localizer.py:87-97 | the fields read after the age: a KeyError on an absent key, otherwise the record with the given age |
| JsonLocalizer.AdditionalInfoMissing | importers/json_localizer.py:97 | when some additional-info key is missing, a first missing one exists in declaration order |
| JsonLocalizer.ParseBehaviouralJson | importers/json_localizer.py:116-118 | the behavioural record is the input with exactly `date` removed; KeyError('date') when it is absent |
| JsonLocalizer.Demographics | importers/json_localizer.py:175 | the demographics record has exactly the DEMOGRAPHICS keys with the subject's values |
| JsonLocalizer.LocalizerQuestionnaire | importers/json_localizer.py:178-179 | the localizer questionnaire is the behavioural record plus `language = 'French'` |
| JsonLocalizer.AppendTokenStep | importers/json_localizer.py:284-293 | appending a token to the description is a space-join of one more token, None staying None only for no tokens |
| JsonLocalizer.IssueTokensNonEmpty | importers/json_localizer.py:283-287 | every `k=str(v)` token is non-empty |
| JsonLocalizer.SequenceTokensNonEmpty | importers/json_localizer.py:289-293 | every sequence-name token is non-empty |
| JsonLocalizer.IssueTokensStep | importers/json_localizer.py:282-287 | one more issue key adds its `k=str(v)` token exactly when its value is not None |
| JsonLocalizer.SequenceTokensStep | importers/json_localizer.py:288-293 | one more sequence key adds its name exactly when its value is truthy |
| JsonLocalizer.FmriDescription | importers/json_localizer.py:281-293 | the loop's description is the space-join of all issue tokens followed by all sequence tokens, None when there are none |
| JsonLocalizer.IssueTokensEmpty | importers/json_localizer.py:282-287 | there is no issue token exactly when every issue value is None |
| JsonLocalizer.SequenceTokensEmpty | importers/json_localizer.py:288-293 | there is no sequence token exactly when no sequence value is truthy |
| JsonLocalizer.FmriDescriptionNone | importers/json_localizer.py:281-293 | the description is None exactly when no FMRI_ISSUES value is non-None and no SEQUENCE_TYPES value is truthy |
| JsonLocalizer.NiftiEntriesMembers | importers/json_localizer.py:365-367 | a map scan is built exactly for the listing entries ending in `.nii.gz` |
| JsonLocalizer.MapScanNaming | importers/json_localizer.py:370-372 | character by character, the label is the stem with every `_` turned into a space and the identifier is nip, `_`, the stem with every space turned into `_`, then `_c_map` or `_t_map`; the file path is `c_maps/<entry>` for both kinds |
| JsonLocalizer.MapScanOfNiftiName | importers/json_localizer.py:366-372 | for a listed `<x>.nii.gz` with `.nii.gz` only at the end, the label is `x` with `_` turned into spaces and the identifier is nip, `_`, `x` with spaces turned into `_`, and the map suffix |
| JsonLocalizer.MapScans | importers/json_localizer.py:363-404 | the map loop yields one scan per `.nii.gz` entry, in listing order |
| JsonLocalizer.MapScansAre | importers/json_localizer.py:406-447 | a scan list with one map scan per `.nii.gz` entry, in order, is the specified one |
| JsonLocalizer.SubjectDirParts | importers/json_localizer.py:146-528 | a parsed subject directory is assembled from the parsed subject.json, the behavioural record, the fMRI description and the two map listings |
| JsonLocalizer.ParseSubjectDir | importers/json_localizer.py:146-528 | the imperative directory parser computes the specified result, errors included |
| JsonLocalizer.SubjectDirOk | importers/json_localizer.py:146-528 | when both JSON files parse and the nip is a string, the directory parses to the assembled records |
| JsonLocalizer.SubjectDirFailure | importers/json_localizer.py:170-179 | a directory parses exactly when subject.json parses, behavioural.json has a date and the nip is a string |
| JsonLocalizer.SubjectRecordsIdentifiers | importers/json_localizer.py:180-526 | assembled records carry the subject's nip in every assessment and scan identifier |
| JsonLocalizer.SubjectRecordsQuestionnaires | importers/json_localizer.py:180-201 | the two questionnaire assessments are `nip_demographics` and `nip_questionnaire`, timepoint Baseline |
| JsonLocalizer.SubjectRecordsAssessments | importers/json_localizer.py:485-526 | the five scan assessments are nip plus `_anat`, `_fmri`, `_c_maps`, `_t_maps`, `_mask`, timepoint Baseline |
| JsonLocalizer.SubjectRecordsScans | importers/json_localizer.py:207-483 | the scans are nip plus `_raw_anat`, `_anat`, `_raw_fmri`, `_fmri` and `_mask` |
| JsonLocalizer.SubjectDirIdentifiers | importers/json_localizer.py:146-528 | every identifier of a parsed directory is built from the nip of its subject.json |
| JsonLocalizer.SubjectDirQuestionnaires | importers/json_localizer.py:175-201 | demographics has exactly the DEMOGRAPHICS keys; the localizer questionnaire is behavioural.json without date plus language French |
| JsonLocalizer.SubjectDirMaps | importers/json_localizer.py:363-447 | the c-map and t-map scan lists hold one map scan per `.nii.gz` entry of their listing, in listing order |
| JsonLocalizer.ParseEntriesPrefixError | importers/json_localizer.py:549-553 | the first failing subject directory aborts the whole listing with its error |
| JsonLocalizer.PutInPlace | importers/json_localizer.py:564-569 | creating a site's table when missing and then setting the nip's entry is one update of the nested dict |
| JsonLocalizer.AssembleStep | importers/json_localizer.py:549-569 | one more subject sets its subject entry, joins its family group and sets its per-site scans and questionnaires |
| JsonLocalizer.ParseSubjects | importers/json_localizer.py:531-570 | the imperative loop returns the first error, or the four dicts assembled from the parsed directories |
| JsonLocalizer.GroupsOfSpec | importers/json_localizer.py:555-562 | there is one group per distinct family; its members are the subjects of that family in encounter order; type is `family`; identifier and name are the family of its first member |
| JsonLocalizer.GroupsOfKey | importers/json_localizer.py:555-562 | a family has a group exactly when some subject belongs to it |
| JsonLocalizer.GroupsOfEntry | importers/json_localizer.py:555-562 | a group's members are its family's subjects in encounter order |
| JsonLocalizer.GroupsOfFirst | importers/json_localizer.py:558-562 | a group is named after the family value of the first subject seen in it |
| JsonLocalizer.MembersOfAbsent | importers/json_localizer.py:555-562 | a family no subject belongs to has no members |
| JsonLocalizer.PutGet | importers/json_localizer.py:564-569 | after setting `table[site][nip]`, exactly that entry is new or replaced and every other entry is unchanged |
| JsonLocalizer.ScansOfSpec | importers/json_localizer.py:564-566 | every `scans[site][nip]` comes from a subject at that site, and the last subject with a given site and nip supplies its scans |
| JsonLocalizer.ScansOfEntry | importers/json_localizer.py:564-566 | an entry of the scans table comes from a parsed subject at that site |
| JsonLocalizer.ScansOfLast | importers/json_localizer.py:564-566 | the last subject with a given site and nip supplies that scans entry |
| JsonLocalizer.QuestionnairesOfSpec | importers/json_localizer.py:567-569 | every `questionnaires[site][nip]` comes from a subject at that site, and the last such subject supplies it |
| JsonLocalizer.QuestionnairesOfEntry | importers/json_localizer.py:567-569 | an entry of the questionnaires table comes from a parsed subject at that site |
| JsonLocalizer.QuestionnairesOfLast | importers/json_localizer.py:567-569 | the last subject with a given site and nip supplies that questionnaires entry |
| JsonLocalizer.ParseEntriesSkipsFiles | importers/json_localizer.py:549-553 | entries that are not directories are skipped: one parsed subject per directory entry |
| JsonLocalizer.ParseEntriesStep | importers/json_localizer.py:549-553 | one more entry adds a parsed subject exactly when it is a directory |
| JsonLocalizer.DirIndicesStep | importers/json_localizer.py:549-553 | one more entry adds a directory index exactly when it is a directory |
| JsonLocalizer.ParseGenetics | importers/json_localizer.py:573-615 | one record per FAM row in row order, with identifiers `row[1]_genetics` and `row[1]_genomic_measure`, type SNP, format plink, chromset all; IndexError at the first row with fewer than two columns |
| Localizer.Gender | importers/localizer.py:22-26 | this table with its '3' fallback gives the same gender as the JSON importer's table |
| Localizer.Handedness | importers/localizer.py:28-33 | this table with its 'Unknown' fallback gives the same handedness as the JSON importer's table |
| Localizer.ImportSubject | importers/localizer.py:55-69 | succeeds exactly when nip, age, sex and laterality are present, else a KeyError on the first one missing; identifier is the nip, gender and handedness come from the tables, and there are exactly six scores in SCORE_TYPES order, None for absent keys |
| Localizer.ImportCenter | importers/localizer.py:79-94 | identifier is the site; name, department, city and country appear only for SHFJ (Orsay) and Neurospin (Gif-sur-Yvette); KeyError('site') when absent |
| Localizer.ImportDevice | importers/localizer.py:96-110 | a device exists only for the two known sites and is hosted by the site's center; SHFJ gives manufacturer Brucker, model `3T Brucker` and the model as name; Neurospin gives SIEMENS, Trio and `3T SIEMENS Trio`; KeyError('site') when absent |
| Localizer.DeviceNameBySite | importers/localizer.py:96-110 | for known sites, two devices have the same name exactly when they come from the same site |
| Localizer.DeviceHostedByCenter | importers/localizer.py:79-110 | the center a device names as its host is the center imported from the same record |
| Localizer.ImportAssessment | importers/localizer.py:112-126 | succeeds exactly when nip, protocol and date are present, else a KeyError on the first one missing; identifier is `str(nip) + '_' + label`; datetime is None exactly when date is falsy |
| Localizer.AssessmentIdentifierAsJson | importers/localizer.py:116 | for a string nip the identifier is `nip_label`, the JSON importer's form |
| Localizer.AppendTruthyTags | importers/localizer.py:170-172 | the loop appends `' ' + t` for each truthy tag in order, and fails with KeyError on the first tag the record lacks |
| Localizer.ImportNeuroimaging | importers/localizer.py:132-175 | the anat and fMRI scan records: identifiers from the exam code, label, type and file from norm_prep (the anatomy label from normalized), and the description; each KeyError names the first key read that is missing |
| Localizer.ImportAnat | importers/localizer.py:137-163 | the anat record: identifier `<exam>_anat`, label from normalized, type and defaced file from norm_prep, description the anatomy value; KeyError on the first of exam, date, anatomy missing |
| Localizer.ImportAnatAsCalled | importers/localizer.py:457-458 | with the loop variable passed as norm_prep, the normalized scan is `anatomy` / `normalized T1` and the other `raw anatomy` / `raw T1`; fails exactly on a missing field |
| Localizer.ImportFmri | importers/localizer.py:146-172 | the fMRI record: identifier, label, type and bold file from norm_prep, description the issue prefix plus the truthy sequence tags; KeyError on the first key read that is missing |
| Localizer.FmriFirstMissing | importers/localizer.py:147-169 | nothing is missing exactly when exam, date and the four issue fields are present; otherwise the first of them absent, in the branch's reading order |
| Localizer.FmriScanFieldsSplit | importers/localizer.py:147-172 | the fMRI branch's keys are exam, date, the four issue fields and the sequence types |
| Localizer.JoinAppend | importers/localizer.py:165-172 | appending `' ' + t` pieces to a joined prefix is the join of the longer token list |
| Localizer.SeqTagsAsTail | importers/localizer.py:170-172 | the appended tags are the truthy sequence names, space-prefixed |
| Localizer.IssueTokensAllSet | importers/localizer.py:165-169 | with all four issue fields set, the JSON importer's issue tokens are the four `k=v` fields in the fixed order |
| Localizer.IssueTokensAllPresent | importers/localizer.py:165-169 | issue keys that are all set each give exactly their `k=v` token, in order |
| Localizer.IssueTokensLast | importers/json_localizer.py:282-287 | a set last issue key contributes the last token |
| Localizer.FieldsAppend | importers/localizer.py:165-169 | one more set key extends the token-per-key correspondence by its own `k=v` |
| Localizer.PrefixAsJoin | importers/localizer.py:165-169 | the fixed description prefix is the space-join of the four `k=v` fields |
| Localizer.FmriDescriptionAsJson | importers/localizer.py:162-172 | when every issue field is set, this description equals the JSON importer's description taken in declaration order |
| Localizer.DeclarationOrders | importers/localizer.py:44-49 | the declared orders of issue fields and sequence types enumerate the JSON importer's sets |
| Localizer.GlobNiftiMembers | importers/localizer.py:181 | the glob keeps exactly the listing entries matching `*.nii.gz` |
| Localizer.ImportMaps | importers/localizer.py:177-201 | one map record per matching file in listing order; exam and date are read only when a file matches, so the KeyError arises only then |
| Localizer.MapImportNaming | importers/localizer.py:183-201 | every map of a type shares the identifier `exam_<type>_map`; the label is the name before `.nii.gz`, character by character, with each `_` turned into a space; the contrast file is `contrasts/<stem>.json` |
| Localizer.GlobNiftiPrefix | importers/localizer.py:181-189 | once a file has matched, the whole listing has a match |
| Localizer.ImportMask | importers/localizer.py:203-217 | the mask record is `exam_mask` over `mask.nii.gz` at the exam date; KeyError on exam or date |
| Localizer.MaskAsJson | importers/localizer.py:207-211 | with exam equal to the nip, the mask identifier and file agree with the JSON importer's mask scan |
| Localizer.ImportQuestionnaire | importers/localizer.py:223-244 | KeyError('date') when absent; otherwise one question per other key, the i-th having identifier `localizer_i`, position i, the i-th key in ascending order as text, and type boolean exactly for boolean values |
| Localizer.BuildQuestions | importers/localizer.py:235-243 | the loop over the sorted keys gives one question per key, the i-th with identifier `localizer_i`, position i, text the i-th key, and type boolean exactly for a boolean value |
| Localizer.QuestionTextsRanked | importers/localizer.py:235-240 | question texts are strictly increasing and are exactly the keys |
| Localizer.AnswerKeys | importers/localizer.py:267-271 | only keys whose value is not a string get an answer |
| Localizer.AnswerKeysMembers | importers/localizer.py:267-271 | a key gets an answer exactly when its value is not a string |
| Localizer.AnswerOf | importers/localizer.py:272-274 | an answer's value is None exactly when falsy; it carries the run's datetime and `questions_id[key]` |
| Localizer.AnswerKeysStep | importers/localizer.py:268-275 | one more sorted key adds an answer exactly when its value is not a string |
| Localizer.ImportQuestionnaireRun | importers/localizer.py:246-276 | KeyError for a missing date, then a missing nip, then the least answered key without a question; otherwise the run `localizer_questionnaire_<sid>` and one answer per non-string value in sorted-key order |
| Localizer.CollectAnswers | importers/localizer.py:266-275 | the answer loop yields the answers in sorted-key order, or fails on the first answered key with no question id |
| Localizer.KnownBeforeStep | importers/localizer.py:268-275 | a key that needs no question id, or has one, keeps every key so far known |
| Localizer.AnswersForAppend | importers/localizer.py:272-275 | appending one key's answer keeps the answers matching their keys |
| Localizer.AllQuestionsKnown | importers/localizer.py:268-275 | a loop that reaches the end has found a question for every answered key |
| Localizer.FirstUnknownQuestion | importers/localizer.py:274 | the loop fails on the least answered key without a question id |
| Localizer.ImportGenomicMeasures | importers/localizer.py:283-306 | one measure per distinct `row[1]`, with identifier `genomic_measure_<id>`, type SNP, format plink and the `.bed` file; a later row overwrites an earlier one; IndexError at the first short row |
| Store.AppendEvent | importers/localizer.py:392 | a store call changes each count only by its own event |
| Store.CreatedIn | importers/localizer.py:392 | every created entity's eid is among the eids handed out |
| Store.HasEntityAppend | importers/localizer.py:392 | later store calls keep every created entity |
| Store.Store.CreateEntity | importers/localizer.py:392 | `create_entity` returns the next fresh eid and logs the creation |
| Store.Store.Relate | importers/localizer.py:411 | `relate` logs the relation and creates nothing |
| Store.Store.Flush | importers/localizer.py:363-364 | `flush` logs a flush and creates nothing |
| Store.FreshEids | importers/localizer.py:392 | no two created entities share an eid, and every eid is below the next one |
| Store.CreatedBefore | importers/localizer.py:392 | two different creations occupy two different places in the eid sequence |
| LocalizerMain.DivStep | importers/localizer.py:363 | the count of multiples of 100000 grows by one exactly at a multiple |
| LocalizerMain.SnpFlushesClosedForm | importers/localizer.py:358-364 | n SNPs cause `(n - 1) / 100000` flushes inside the loop, none for n = 0 |
| LocalizerMain.ImportSnps | importers/localizer.py:357-364 | one Snp per rs id with consecutive eids, in order, each logged under its rs id; the log only grows; flushes after every index ind > 0 divisible by 100000; no other type created |
| LocalizerMain.ImportSnp | importers/localizer.py:361-364 | one iteration appends exactly the Snp creation with the next eid and its rs id, then a flush exactly when ind > 0 is a multiple of 100000 |
| LocalizerMain.CacheAdd | importers/localizer.py:391-394 | caching a newly created entity under a new name keeps the cache exact |
| LocalizerMain.CacheOther | importers/localizer.py:391-394 | store calls for other types keep a cache exact |
| LocalizerMain.ScoredNames | importers/localizer.py:412-415 | the names with a truthy score value are exactly those the loop acts on |
| LocalizerMain.ScoredCount | importers/localizer.py:412-415 | at most one ScoreValue per score entry |
| LocalizerMain.ScoredStep | importers/localizer.py:412-415 | one more score adds its name and one ScoreValue exactly when truthy |
| LocalizerMain.ExtendsUpdate | importers/localizer.py:393 | `setdefault` of a new name, or the same eid, keeps every earlier entry and adds that name |
| LocalizerMain.KeysStep | importers/localizer.py:424 | adding a score's name extends the names seen by one |
| LocalizerMain.ExtendsTrans | importers/localizer.py:384-428 | caches only grow across the subject loop |
| LocalizerMain.CountTwo | importers/localizer.py:390-406 | two creations of one type and name count at least twice |
| LocalizerMain.CountOne | importers/localizer.py:390-406 | a creation counts at least once |
| LocalizerMain.CreatedAtMostOnce | importers/localizer.py:390-406 | with an exact cache, the store holds at most one entity of that type per name |
| LocalizerMain.Loader.constructor | importers/localizer.py:384 | the three caches start empty on a store without Centers, Devices or ScoreDefinitions |
| LocalizerMain.Loader.CacheCenter | importers/localizer.py:389-396 | a Center is created only the first time its name is seen and its eid cached; later the cached eid is reused with no store call; an unknown site fails with KeyError('name') |
| LocalizerMain.Loader.CreateCenter | importers/localizer.py:392-394 | a name not cached yet gets a new Center with the next eid, cached under that name; the other caches are unchanged |
| LocalizerMain.Loader.CacheDevice | importers/localizer.py:398-406 | a Device is created only the first time its name is seen, hosted by the cached center's eid; later the cached eid is reused; an unknown site fails with KeyError('hosted_by') |
| LocalizerMain.Loader.CreateDevice | importers/localizer.py:401-404 | a name not cached yet gets a new Device with the next eid and its hosting center's eid, cached under that name; the other caches are unchanged |
| LocalizerMain.Loader.CreateUncached | importers/localizer.py:409-410 | creating a Subject or ScoreValue leaves the three caches exact |
| LocalizerMain.Loader.RelateUncached | importers/localizer.py:411 | a relation leaves the three caches exact |
| LocalizerMain.Loader.ScoreDefinition | importers/localizer.py:416-425 | a cached name reuses its eid and changes nothing; otherwise one ScoreDefinition is created at the next eid and cached; the new log, cache and next eid are the step `DefStep` |
| LocalizerMain.ScoresRunGrows | importers/localizer.py:412-428 | the score loop only appends to the log, keeps every cached definition and never lowers the next eid |
| LocalizerMain.Loader.ImportScore | importers/localizer.py:416-428 | a truthy score caches its name, and the new state is `ScoreStep`: the definition step, then a ScoreValue with the value's text pointing at the definition eid, related to the subject |
| LocalizerMain.Loader.AddScoreValue | importers/localizer.py:426-428 | appends exactly a ScoreValue at the next eid pointing at the definition, then its related_infos relation from the subject |
| LocalizerMain.Loader.ImportScores | importers/localizer.py:412-428 | the state after the loop is `ScoresRun` over the scores: falsy values create nothing, each truthy value one ScoreValue; the cached names grow by exactly the truthy names |
| LocalizerMain.Loader.AddSubject | importers/localizer.py:408-428 | fails exactly when import_subject lacks a field, with that KeyError, and then creates nothing; on success the Subject gets the next eid, is logged with its nip and related to the study, and its scores follow as `ScoresRun` |
| LocalizerMain.Loader.CreateSubject | importers/localizer.py:409-411 | appends exactly the Subject at the next eid, named by str(nip), then its related_studies relation |
| LocalizerMain.Loader.AddImported | importers/localizer.py:409-428 | the Subject and its study relation, followed by the score loop as `ScoresRun` from the next eid |
| LocalizerMain.SubjectAddedLogged | importers/localizer.py:409-428 | after the subject step the old log is a prefix and the Subject and its study relation are in the log |
| LocalizerMain.SubjectLoggedGrows | importers/localizer.py:385-428 | a subject logged once stays logged as later subjects append to the log |
| LocalizerMain.Loader.LoadSubject | importers/localizer.py:389-428 | one subject goes through exactly when its site is known and its subject fields are present; afterwards its center and device are cached and its Subject and study relation are in the log, which only grows |
| LocalizerMain.Loader.LoadSubjects | importers/localizer.py:385-428 | the loop succeeds exactly when every record is loadable; then every record's center and device are cached and the i-th eid is logged as the i-th record's Subject; the caches and the log only grow |
| LocalizerMain.AllLoggedStep | importers/localizer.py:385-428 | once the next record's subject is in a longer log, every earlier subject stays logged and the new eid joins them |
| LocalizerMain.CoversStep | importers/localizer.py:385-428 | one more loaded record keeps every record so far covered by the caches |
| LocalizerMain.CoversFailure | importers/localizer.py:385-428 | a record that cannot load makes the whole loop fail |
| LocalizerMain.CoversLoadable | importers/localizer.py:385-428 | records covered by the caches are all loadable |
| LocalizerMain.CachedExtends | importers/localizer.py:389-406 | a record whose center and device names are cached stays so when the caches grow |

## Left out

- `parse_nifti` and `get_image_info`: NIfTI header reads through nibabel and floating-point voxel sizes. The TypeData fields of scans are not modelled.
- `datetime.strptime`: a date is kept as the raw JSON value, and only the rule "None exactly when the date is falsy" is modelled.
- File I/O, `json.load`/`json.dump`, `os.listdir`, `glob`, `csv.reader`, `os.path.isdir`: their results are inputs (records, listings in listing order, FAM rows, an is-directory flag). File paths are sequences of path components, with no `os.path` semantics. They are relative to the subject directory, the `data_dir` or the genetics directory: the root that the scripts join in front is dropped.
- The iteration order of the sets FMRI_ISSUES and SEQUENCE_TYPES: a parameter that must enumerate the set.
- JSON floats: values are null, booleans, integers and strings. `float(val)` of an answer is modelled on integers and booleans by `Localizer.Number`.
- `int()` on an age string: modelled on an optional sign followed by digits. Surrounding whitespace and digit separators are not accepted.
- `main` of `importers/json_localizer.py` and the output-writing parts of `importers/localizer.py`: I/O only.
- `import_study`: a constant record except for an absolute path.
- In the `__main__` block of `importers/localizer.py`, the following are not modelled: the study, questionnaire and question creation, chromosomes and genes, the chromosome lookup of each SNP, the platform relation loop, genomic measures creation, assessments, scans, the design matrix, answers, and the `sqlgen_store` switch (the flush rule is modelled with it on).
- The CubicWeb store: only fresh eids and a log of creations (type, name, at most one entity reference), relations and flushes. ScoreDefinition's category and type and a ScoreValue's text are not kept; the name slot of a ScoreValue holds its text.
- LocalizerMain.ImportSnps: the final log is stated as a growing prefix that holds every Snp creation, with the Snp and flush totals, not as one closed-form sequence. `ImportSnp` states the exact events of each iteration.
- LocalizerMain.Loader.LoadSubject and LocalizerMain.Loader.LoadSubjects: the log is stated as a growing prefix that holds each Subject and its study relation, not as the full sequence of Center, Device, Subject and score events. `AddSubject` states the exact subject-and-scores part.
- Localizer.ImportNeuroimaging: the main loop's `normalized` variable, which the function reads as a global, is a parameter of its own.
- Values.PyStr: only strings, None and booleans are stated; `str()` of an integer is the decimal digits but is not part of the contract.
- `import/localizer.py`, views, URLs, migration, schema, packaging and tests: framework glue with no mapping logic.
