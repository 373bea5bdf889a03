# barlamane loader, modelled in Dafny

This project models the loader of the barlamane repository. The loader reads
JSON exports of the Moroccan parliament: the deputies of three terms, the
laws, and the written questions. It stores Commission, Deputy and Law nodes
in a Dgraph graph database. It also builds one Ministry object per ministry
the questions are addressed to, but never stores them, and `main` builds no
Minister; the entity classes and `create_representative` still cover both.

It has two parts.

- **Canonical commission names** (`check_data.py`). `process_commission`
  turns a loosely written Arabic commission name into a key. It removes
  every "لجنة" ("committee"), glues "و " to the next word, spells "لإ" as
  "لا", and strips whitespace. Names mentioning justice ("عدل") or public
  finance oversight come first and map to fixed keys. A normalised name
  longer than 40 characters is cut to the first word of its first 30. Two
  `extract_*` functions collect these keys into sets: one from the deputies'
  functions (a parliamentary group, "فريق", is not a commission) and one from
  the laws' readings and texts. The third collects the raw `to` value of each
  question, the ministry it is addressed to, without making it canonical.
- **Entities and uid bookkeeping** (`main.py`). Each entity serialises to a
  mutation dictionary that carries `uid` only when that uid is truthy.
  `create_representative` creates a deputy's commissions, or a minister's
  ministry, only while they have no uid yet, and records the uid each
  mutation returns. This way a commission shared by many deputies is
  created once. `main` builds one Commission object per extracted name. It
  stores the deputies of 2016-2021, then the three kinds of laws, and looks
  every commission up by its canonical name.

Modules:

- `PyStr`: the Python `str` operations the code uses: `in`, `replace`,
  `split`, `join` and `strip`, over strings as sequences of code points.
- `CheckData`: `process_commission` and the three extraction loops, over
  in-memory records instead of files.
- `Entities`:
  - the mutation dictionaries, and decoders that prove each dictionary
    keeps everything but a falsy uid;
  - the database, reduced to a class with a mutation log and a counter; it
    answers the n-th mutation with the uid `0x` followed by n+1 in
    hexadecimal, the way Dgraph is assumed to number new nodes;
  - the five entity classes.
- `Loader`: the manager class and `main` as the method `Load`.

`process_commission` is a Dafny function, so it is total and gives equal keys
for equal names; the set de-duplication relies on exactly that. `main`
assumes that the key of every deputy and law record it looks up is in
`dict_commissions`. `Load` proves this, because both the extraction and the
lookup use the same skip rule and the same `process_commission`.

A log-based invariant, `Counted`, holds across all of `main`. Each
commission of the table is created by a top-level mutation exactly once
if it has a uid and never otherwise.

A law is sent with its commission's dictionary as it stands as
`developed_by`. The model states this exactly. A commission that no deputy
of 2016-2021 sits in still has no uid when its laws are stored. Its
dictionary then has no `uid`, so the database is asked to create a node
inside the law mutation. `Counted` counts only top-level commission
creations.

## Model

| member | source | states |
|---|---|---|
| PyStr.IsSpace | check_data.py:8 | the characters Python's `isspace` accepts, which `strip` removes; its partner is `Strip`'s contract |
| PyStr.Strip | check_data.py:8 | `strip()` yields a piece of the input that neither starts nor ends with whitespace, and everything dropped around it is whitespace |
| PyStr.StripEmpty | check_data.py:8 | a name strips to the empty string exactly when it is all whitespace |
| PyStr.LStrip | check_data.py:8 | the leading whitespace, and only that, is dropped |
| PyStr.RStrip | check_data.py:8 | the trailing whitespace, and only that, is dropped |
| PyStr.Replace | check_data.py:8 | left-to-right, non-overlapping `str.replace`; its partners are `ReplaceIsJoinOfSplit` and `ReplaceAbsent` |
| PyStr.ReplaceIsJoinOfSplit | check_data.py:8 | left-to-right non-overlapping `replace(pat, rep)` equals `rep.join(split(pat))` |
| PyStr.ReplaceAbsent | check_data.py:8 | `replace` leaves a string without the pattern unchanged |
| PyStr.Split | check_data.py:14 | `str.split` with a non-empty separator gives at least one piece; its partners are `JoinSplit`, `SplitFirst` and `SplitRest` |
| PyStr.JoinSplit | check_data.py:14 | joining the pieces of `split(sep)` with `sep` gives back the string |
| PyStr.SplitFirst | check_data.py:14 | the first piece of `split(sep)` is a prefix in which `sep` starts nowhere, and it is all of the string or is followed by `sep` |
| PyStr.SplitRest | check_data.py:14 | the pieces after the first: none when the first piece is the whole string, else the split of what follows the first piece and its separator; with `SplitFirst` this fixes every piece |
| PyStr.Contains | check_data.py:9-11 | Python's `p in s`, also used for the group test at check_data.py:55: `p` occurs at some index of `s`; its partner is `ContainsChar` |
| PyStr.ContainsChar | check_data.py:14 | a one-character pattern is contained exactly when the character occurs |
| CheckData.Normalise | check_data.py:8 | the rewritten name neither starts nor ends with whitespace |
| CheckData.ProcessCommission | check_data.py:6-18 | a name containing "عدل" maps to "العدل"; otherwise one containing the finance-oversight phrase maps to that phrase (both tested on the raw name); otherwise a normalised name over 40 characters maps to a non-empty, space-free prefix of it of at most 30 characters, ending at the cut or before a space; otherwise it maps to the normalised name |
| CheckData.FirstWordOf | check_data.py:13-14 | `n[:30].split(" ")[0]` of a long name that starts with a non-space is non-empty, at most 30 long, space-free, a prefix of `n`, and ends at the cut or before a space |
| CheckData.Parliament.Terms | check_data.py:48 | the three terms 2011-2016, 2016-2021 and 2021-2026 are read |
| CheckData.SitsInCommission | check_data.py:54-55 | a deputy sits in a commission exactly when it has a function that does not mention a parliamentary group; the extraction and `main`, at main.py:496-497, use this one rule |
| CheckData.ExtractCommissionsFromDeputies | check_data.py:45-61 | the result is the set of keys of the functions of all deputies of all terms, skipping deputies without a function and parliamentary groups |
| CheckData.AddReadingCommissions | check_data.py:27-35 | one loop over bills adds exactly the keys of the readings that have a commission |
| CheckData.AddCommissionsOfReadings | check_data.py:28-30 | the inner loop adds exactly the keys of one bill's readings that have a commission |
| CheckData.ExtractCommissionsFromLaws | check_data.py:21-41 | the result is the set of keys of every reading with a commission in both bill lists, plus every law text with a commission |
| CheckData.ExtractMinistryFromQuestions | check_data.py:65-76 | the result is exactly the set of raw `to` values of all questions |
| Entities.WithUid | main.py:127-128 | `uid` is added exactly when the uid is truthy, and nothing else changes |
| Entities.CommissionDict | main.py:157-171 | the type tag and name are always present, and `uid` exactly when truthy |
| Entities.MinistryDict | main.py:238-253 | the type tag and name are always present, and `uid` exactly when truthy |
| Entities.LawDict | main.py:109-130 | title, `type` from `law_type`, link and timestamp are present; `developed_by` equals the commission's dictionary exactly when one is attached, and `uid` exactly when truthy |
| Entities.DeputyDict | main.py:208-224 | `work_at` lists the commission dictionaries in order; `uid` exactly when truthy |
| Entities.MinisterDict | main.py:270-286 | `work_at` is the ministry's dictionary; `uid` exactly when truthy |
| Entities.CommissionDictRoundTrip | main.py:163-171 | decoding a commission dictionary gives back its name and its uid when truthy |
| Entities.MinistryDictRoundTrip | main.py:244-253 | decoding a ministry dictionary gives back its name and its uid when truthy |
| Entities.LawDictRoundTrip | main.py:115-130 | decoding a law dictionary gives back every field and the attached commission |
| Entities.CommissionListRoundTrip | main.py:218 | decoding `work_at` gives back the commissions in insertion order |
| Entities.DeputyDictRoundTrip | main.py:214-224 | decoding a deputy dictionary gives back name, party, commissions in order and truthy uid |
| Entities.MinisterDictRoundTrip | main.py:276-286 | decoding a minister dictionary gives back name, party, ministry and truthy uid |
| Entities.HexLength | main.py:313-314 | a hexadecimal numeral has at least one digit, and two or more exactly from 16 on; `DgraphUidScheme` rests on it |
| Entities.DgraphUidScheme | main.py:313-314 | the uids the database answers with are truthy and pairwise distinct |
| Entities.Database.Mutate | main.py:313-314 | a mutation is appended to the log and answered with the next fresh uid |
| Entities.Commission.constructor | main.py:135-142 | a new commission has its name and no uid |
| Entities.Commission.ToDict | main.py:157-171 | the commission's dictionary from its current name and uid; `Commission.ToDictRoundTrip` states what it keeps |
| Entities.Commission.ToDictRoundTrip | main.py:157-171 | decoding the commission's dictionary gives back its name, and its uid when truthy |
| Entities.Commission.CreateLaw | main.py:144-155 | a new law with no uid, developed by this commission, keeping title, type, link and timestamp |
| Entities.Law.constructor | main.py:85-99 | a new law has its fields, no uid and no commission |
| Entities.Law.ToDict | main.py:109-130 | the law's dictionary, with its commission's current dictionary when one is attached; `Law.ToDictRoundTrip` states what it keeps |
| Entities.Law.ToDictRoundTrip | main.py:109-130 | decoding the law's dictionary gives back every field, the attached commission's name and truthy uid, and the law's truthy uid |
| Entities.WorkAt | main.py:218 | one dictionary per commission |
| Entities.Nodes | main.py:218 | a definition: the name and uid of each commission object, in order; what it means for `work_at` is stated by `Entities.WorkAtNodes` |
| Entities.WorkAtNodes | main.py:218 | the i-th entry of `work_at` is the dictionary of the i-th commission, so `work_at` is the list of the commissions' dictionaries |
| Entities.Deputy.constructor | main.py:190-198 | a new deputy has name and party, no uid and no commissions |
| Entities.Deputy.AddCommission | main.py:200-206 | appends at the end, leaving the earlier commissions and the uid as they were |
| Entities.Deputy.ToDict | main.py:208-224 | the deputy's dictionary, with its commissions' current dictionaries; `Deputy.ToDictRoundTrip` states what it keeps |
| Entities.Deputy.ToDictRoundTrip | main.py:208-224 | decoding the deputy's dictionary gives back name, party, each commission's name and truthy uid in the order they were added, and the deputy's truthy uid |
| Entities.Ministry.constructor | main.py:229-236 | a new ministry has its name and no uid |
| Entities.Ministry.ToDict | main.py:238-253 | the ministry's dictionary from its current name and uid; `Ministry.ToDictRoundTrip` states what it keeps |
| Entities.Ministry.ToDictRoundTrip | main.py:238-253 | decoding the ministry's dictionary gives back its name, and its uid when truthy |
| Entities.Minister.constructor | main.py:258-268 | the minister keeps its ministry, the ministry's `minister` is set to it, and the ministry's uid is untouched |
| Entities.Minister.ToDict | main.py:270-286 | the minister's dictionary, with its ministry's current dictionary; `Minister.ToDictRoundTrip` states what it keeps |
| Entities.Minister.ToDictRoundTrip | main.py:270-286 | decoding the minister's dictionary gives back name, party, the ministry's name and truthy uid, and the minister's truthy uid |
| Loader.NewCommissions | main.py:311-314 | the commissions the loop creates: those without a uid, each at its first occurrence; its partners are the three lemmas below and `Manager.CreateCommissions` |
| Loader.NewCommissionsWithin | main.py:311-314 | only the deputy's own commissions are created |
| Loader.NewCommissionsMembers | main.py:311-314 | a commission of the deputy is created exactly when it had no uid |
| Loader.NewCommissionsDistinct | main.py:311-314 | no commission is created twice, even when listed twice |
| Loader.Manager.constructor | main.py:290-297 | the manager keeps the database it is given |
| Loader.Manager.CreateCommission | main.py:312-314 | a commission with no uid is sent without uid and gets the fresh uid |
| Loader.Manager.VisitCommission | main.py:311-314 | one loop step keeps the loop's progress invariant |
| Loader.Manager.CreateNew | main.py:312-314 | creating the next new commission extends the created list, gives it the next uid and logs its creation |
| Loader.UidsConsistent | main.py:311-314 | the uids read off a list of commission objects give a commission listed twice the same uid |
| Loader.Manager.CreateCommissions | main.py:311-314 | exactly the commissions without a uid are created, once each, in order, with consecutive fresh uids (`NumberedFrom`); the others keep their uid; afterwards all have one |
| Loader.Manager.VisitCommissions | main.py:311-314 | visiting every commission in turn takes the loop's progress invariant from the start to the end of the list |
| Loader.Manager.LoopDone | main.py:311-314 | once the loop has visited every commission, exactly the `NewCommissions` were created and every commission has a uid |
| Loader.Manager.CreateDeputy | main.py:299-336 | the commission loop as above, then the deputy is sent with its commissions' new dictionaries and gets the next uid |
| Loader.Manager.StoreDeputy | main.py:323-329 | the deputy's mutation is logged, its uid recorded, and its commissions' uids untouched |
| Loader.Manager.CreateMinister | main.py:316-329 | the ministry is created only if it had no uid; then the minister is sent and both have uids |
| Loader.Manager.CreateLawInCommission | main.py:372-398 | the law is sent with the commission's dictionary as `developed_by` and gets the fresh uid; the commission is left as it is |
| Loader.ProjetError | main.py:512 | a bill raises `IndexError` without readings and `KeyError` when its first reading has no commission; its partners are the two lemmas below |
| Loader.FirstProjetError | main.py:511-512 | a definition: the error of the first bill whose lookup raises, or none; `FirstProjetErrorAt` and `FirstProjetErrorNone` state which bill decides it |
| Loader.ExpectedOutcome | main.py:511-539 | a definition: the exception that ends `main`, from the first failing projet or else a text without commission; `StoreRecords` and `Load` state that the load ends with it |
| Loader.FirstProjetErrorAt | main.py:511-512 | the first bill whose lookup raises decides the error |
| Loader.FirstProjetErrorNone | main.py:511-512 | no error exactly when every bill has a first reading with a commission |
| Loader.UidsAfterDeputy | main.py:494-502 | storing a deputy keeps the uids already set and leaves the deputy's commission with one |
| Loader.Counted | main.py:311-314 | a definition: every commission of the table was created by exactly one top-level uid-less mutation if it has a uid, and by none if not; `CountedCreate`, `CountedOther` and `DeputyKeepsCounted` state that the loader keeps it |
| Loader.CountedOther | main.py:513-518 | a mutation of another node type keeps every commission's creation count |
| Loader.CountedCreate | main.py:312-314 | creating a commission without uid counts it once, and no other |
| Loader.DeputyKeepsCounted | main.py:494-502 | storing a deputy keeps the invariant that each commission with a uid was created once and none without |
| Loader.DeputyMutations | main.py:495-502 | a definition: the mutations one deputy record sends, the commission first when it has no uid yet; `DeputySentOnce` and `DeputyKeepsCounted` state what they send and keep |
| Loader.DeputiesRun | main.py:494-502 | the mutations of the deputy loop, record after record, and the uid table it leaves; every uid table key is kept and the uid counter advances by one per mutation |
| Loader.DeputiesSent | main.py:502 | the name and party of each Deputy mutation of a log, in order |
| Loader.DeputiesSentAppend | main.py:502 | the deputies sent by two logs in a row are those of the first, then those of the second |
| Loader.Records | main.py:494-495 | a definition: the name and party of each deputy record, in order; `Loader.DeputiesRunSendsEach` states that the deputy loop sends exactly these |
| Loader.DeputySentOnce | main.py:494-502 | storing one record sends exactly one Deputy mutation, carrying the record's name and party |
| Loader.DeputiesRunSendsEach | main.py:494-502 | the deputy loop sends one Deputy mutation per record, with its name and party, in the order of the records |
| Loader.DeputiesRunCounted | main.py:494-502 | the deputy loop keeps each commission created at most once by a top-level mutation, keeps the uids already set, and leaves every record's commission with a uid |
| Loader.BuildCommissions | main.py:477-480 | one new, uid-less commission per name, named by its key |
| Loader.BuildMinistries | main.py:485-487 | one new, uid-less ministry per name, named by its key |
| Loader.NewDeputy | main.py:495-501 | the deputy object holds the one commission its function names, or none for no function or a group |
| Loader.StoreDeputyRecord | main.py:494-502 | the mutations sent and the new uid table of one deputy record |
| Loader.StoreSittingDeputy | main.py:502 | a deputy with a commission: the mutations sent and the new uid table |
| Loader.StoreLoneDeputy | main.py:502 | a deputy without a commission: only the deputy is sent |
| Loader.StoreWithNewCommission | main.py:502 | the deputy's uid-less commission is created first and the deputy sent with its new uid |
| Loader.WorkAtSingle | main.py:218 | the `work_at` list of one commission is that commission's dictionary |
| Loader.StoreWithKnownCommission | main.py:502 | the deputy's commission already has a uid: only the deputy is sent |
| Loader.StoreDeputies | main.py:494-502 | the log grows by exactly the mutations of `DeputiesRun` and the uid table becomes its table; so every deputy's commission ends with a uid and each commission is created at most once by a top-level mutation |
| Loader.StoreNextDeputy | main.py:494-502 | one more record of the deputy loop: the log and uid table follow `DeputiesRun` one record further |
| Loader.StoreLaw | main.py:512-518 | the law mutation carries the commission's dictionary as it stands, and the creation count is kept |
| Loader.FileLaw | main.py:512-518 | a law filed under the canonical name of its commission appends exactly one Law mutation, with that commission's current dictionary as `developed_by`, and keeps the creation count |
| Loader.AppendLaw | main.py:512-518 | filing one law keeps the creation count and only appends to the log |
| Loader.StoreProjets | main.py:511-518 | the projets loop only appends to the log, keeps the creation count, and ends with the error of the first bill lacking a first reading or its commission |
| Loader.StorePropositions | main.py:521-530 | the propositions loop never raises, only appends to the log and keeps the creation count |
| Loader.StoreTexts | main.py:532-539 | the texts loop only appends to the log, keeps the creation count, and raises exactly when some text has no commission |
| Loader.DeputyCommissionsOfTerm | main.py:500 | every key looked up for a 2016-2021 deputy is among the extracted deputy commissions |
| Loader.LawCommissionsOfRecords | main.py:511-539 | every key looked up for a law is among the extracted law commissions |
| Loader.StoreRecords | main.py:494-539 | the log begins with exactly the deputies' `DeputiesRun` mutations, then the laws'; the outcome is the expected error or done; each deputy's commission ends with a uid |
| Loader.BuildTables | main.py:473-487 | one new, uid-less commission per extracted name and one new, uid-less ministry per addressee, each named by its key |
| Loader.Unassigned | main.py:477-480 | a definition: the uid table in which no name has a uid yet; `Loader.UidTableUnassigned` states that the freshly built table is this one |
| Loader.UidTableUnassigned | main.py:477-480 | a table of commissions without uids has the all-unassigned uid table |
| Loader.Load | main.py:463-553 | one commission per extracted name and one ministry per addressee; every lookup succeeds; the log begins with the 2016-2021 deputies' mutations from an all-unassigned table, one per record in order; each deputy's commission ends with a uid; each commission is created at most once by a top-level mutation; the load ends as the first failing law record decides |

## Left out

- `DgraphConnection` is not modelled: the network client, `drop_all`, the schema, and `close`. The database is the `Database` class.
- The `txn.commit`/`discard` calls, the `try`/`except`/`finally` blocks and every `print` are not modelled. A mutation always succeeds.
- `query_representative` is not modelled: it builds a query string and parses the database's reply.
- `Law.update_state`, `old_main` and `check_inter` are not modelled: the first sets a field nothing reads, and the others are demos and diagnostics.
- File reading and `json.load` are not modelled. The exports are in-memory records, and `extract_ministry_from_questions`' five files are a sequence of question lists. A question keeps only its `to` field, the one the code reads.
- Keys the code reads without a guard (`name`, `party`, `title`, `url`, `readings`, `to`) are assumed present. Only a missing first reading or `commission` in the law loops is modelled as the error that ends `main`.
- `datetime.now().isoformat()` is not modelled. `Load` takes one timestamp string and every law gets it, whereas the source reads the clock once per `Law` (main.py:98).
- Dgraph's uid numbering is assumed to be `0x` followed by n+1 in hexadecimal. The code needs only truthy, distinct uids, which `DgraphUidScheme` proves.
- `create_representative`'s `isinstance` dispatch is split into `Manager.CreateDeputy` and `Manager.CreateMinister`.
- Loader.StoreProjets: states the error, the creation count and that the log only grows, not the full list of law mutations. `FileLaw` states the mutation of one law exactly.
- Loader.StorePropositions: states the creation count and that the log only grows, not the list of law mutations, so it does not state that a bill without a first reading or commission sends nothing.
- Loader.AppendLaw: keeps only two of `FileLaw`'s facts, the creation count and that the log only grows, so that the three law loops can carry them as invariants.
- Loader.StoreTexts: states the error, the creation count and that the log only grows, not the list of law mutations.
- Loader.StoreRecords: states the deputies' mutations exactly, but the laws' only as mutations appended after them.
- Loader.Load: states the deputies' mutations exactly, but the laws' only as mutations appended after them.
- Loader.StoreLaw: when a law's commission has no uid yet, the nested `developed_by` dictionary makes Dgraph create a commission node inside the law mutation (main.py:123-125, 382-388). The model logs that mutation as sent, but `Counted` counts only top-level commission creations, and the commission object keeps no uid, as in the source.
- Entities.Database.Mutate: answers every mutation with one uid. For a law mutation that also creates its commission, Dgraph returns several uids, and main.py:392 takes the first of `response.uids.values()`; the model assumes that uid is the law's.
