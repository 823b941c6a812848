# CyberSentinel DLP Linux agent: a verified model of the file-event pipeline

The CyberSentinel agent watches directories for file changes. For each changed file
it decides whether the file is in scope and classifies up to 100 000 characters of it
for sensitive data: card numbers (PAN), US national ID numbers (SSN), e-mail addresses,
credential markers (API_KEY) and private-key headers. It then builds an event record
for the server. This project models that pipeline in Dafny, together with the parts
around it: the configuration merge, how HTTP statuses are read, and the agent's
`running` flag and watcher list. It proves properties of the model.

Modules, one file each:

- `Wrappers` (`wrappers.dfy`): `Option`.
- `PathFilter` (`path_filter.dfy`): `_should_monitor`.
  - Star stripping.
  - `Path.name` and `Path.suffix`.
  - `str.lower`.
  - `ShouldMonitor`, a loop with an early return, proved equal to the predicate `Monitored`.
- `FileMonitor` (`file_monitor.dfy`): `on_created`, `on_modified` and `on_moved` as methods, specified by the function `Dispatch`.
- `Classifier` (`classifier.dfy`):
  - The five regular expressions, written out as predicates over positions.
  - `Classify`, the step-by-step rule ladder, proved equal to the specification `ClassificationOf(Detect(content))`.
  - Lemmas about that specification.
- `Config` (`config.dfy`):
  - The JSON values of the configuration.
  - The built-in defaults.
  - The shallow `dict.update` merge.
  - The nested `.get` lookups the agent performs.
- `EventBuilder` (`event_builder.dfy`): `handle_file_event`, made of the size gate, the content window, classification and the event record.
- `Delivery` (`delivery.dfy`): which HTTP statuses count as success for registration, events and heartbeats.
- `Agent` (`agent.dfy`): `class DlpAgent`.
  - The fields `running` and `observers`.
  - `Start`, `StartFileMonitoring` (a loop appending one watcher per existing path) and `Stop` (a loop stopping each watcher).

Environment facts are parameters of the model:

- which paths exist (a set);
- a file's size, which is `None` when the lookup fails;
- its SHA-256 digest (an opaque string);
- its text;
- the user name and host name;
- the event id and the timestamp.

Three behaviours of the code are easy to misread. The model follows the code in each:

- **Severity.** One might expect the severity to be the maximum over the matched rules. The code overwrites a single variable rule by rule, so the last assigning rule wins. A card number together with an `api_key` marker is "high", not "critical". `Classifier.FinalSeverityVersusMaximum` states exactly when the two differ. `Classifier.CardNumberWithCredentialExample` shows a concrete content.
- **Exclusion.** A pattern such as `/home/*/.cache` reads like a wildcard for one path segment. The code deletes every `*` and tests a plain prefix, so `/home/*/.cache` becomes `/home//.cache` and only excludes paths with a doubled `/`.
  - `PathFilter.WildcardIsNotASegment` proves this in general.
  - `PathFilter.SegmentWildcardExample` gives an instance.
  - `Config.DefaultExclusionsNeedDoubleSlash` shows that none of the default exclusions excludes a path without `//`.
- **Size ceiling and content window.**
  - A file is skipped only when its size is strictly larger than the ceiling, so a file of exactly `max_file_size_mb` MiB is processed (`EventBuilder.CeilingIsInclusive`).
  - The content is read in text mode, so the window is 100 000 *characters*, not bytes (`EventBuilder.Window`).

## Model

| member | source | states |
|---|---|---|
| PathFilter.RemoveStars | agent.py:121 | `exclude.replace("*", "")` leaves no `*` and never lengthens the pattern |
| PathFilter.RemoveStarsIdentity | agent.py:121 | a pattern without `*` is left unchanged |
| PathFilter.RemoveStarsOnlyStars | agent.py:121 | a pattern made only of stars becomes the empty string |
| PathFilter.StarBetween | agent.py:121 | deleting the one `*` of `a*b` gives `a` followed by `b` |
| PathFilter.StartsWith | agent.py:121 | `str.startswith`: the pattern is a prefix of the path |
| PathFilter.Segments | agent.py:125 | splitting a path on `/` gives at least one piece and no piece contains `/` |
| PathFilter.Parts | agent.py:125 | the kept path components are non-empty, not ".", and taken from the split |
| PathFilter.Name | agent.py:125 | `Path(p).name` contains no `/` and is never "." |
| PathFilter.NameOfJoin | agent.py:259-263 | the name of `dir + "/" + n` is `n` for a single component `n` |
| PathFilter.LastIndexOf | agent.py:125 | the index is the last occurrence of the character, or -1 when it does not occur |
| PathFilter.Suffix | agent.py:125 | `Path.suffix` is empty or a final `.ext` which has no other '.' in it, isn't the whole name, and has at least one character after the dot |
| PathFilter.SuffixOfExtension | agent.py:125 | `stem.ext` with non-empty stem and dot-free ext has suffix `.ext` |
| PathFilter.HiddenFileHasNoSuffix | agent.py:125 | a name `.e` with a leading dot only has no suffix |
| PathFilter.LowerChar | agent.py:125 | lower-casing maps exactly A-Z to a-z and fixes every other character |
| PathFilter.Lower | agent.py:125 | `str.lower` keeps the length and lower-cases pointwise |
| PathFilter.Excluded | agent.py:119-122 | some exclude pattern, with its stars deleted, is a prefix of the path |
| PathFilter.ExtensionAllowed | agent.py:125-127 | the extension list is empty, or it holds the lower-cased suffix of the path's last component |
| PathFilter.Monitored | agent.py:116-127 | what `_should_monitor` answers: not excluded, and the extension is allowed |
| PathFilter.ShouldMonitor | agent.py:116-127 | the loop with early return answers exactly `Monitored`: not excluded by any stripped pattern, and the extension list is empty or holds the lower-cased suffix |
| PathFilter.ExclusionWins | agent.py:119-122 | a path starting with some stripped exclusion is rejected whatever the extension list |
| PathFilter.EmptyAllowlistAdmitsAll | agent.py:125-127 | with no exclusion matching, an empty extension list admits every path |
| PathFilter.StarPatternExcludesAll | agent.py:119-122 | an exclusion made only of stars rejects every path |
| PathFilter.SuffixOfJoin | agent.py:125 | the suffix of `dir/stem.ext` is `.ext` |
| PathFilter.MonitoredByExtension | agent.py:125-127 | for a non-excluded `dir/stem.ext`: monitored iff the list is empty or holds lower-cased `.ext` |
| PathFilter.UpperAndLowerExtensionAlike | agent.py:125-127 | `x.TXT` and `x.txt` get the same answer |
| PathFilter.UpperCaseEntriesNeverMatch | agent.py:125-127 | the list is not lower-cased: entries all holding a capital letter never match any path |
| PathFilter.StripDataCache | agent.py:121 | `/data/*/cache` strips to `/data//cache` |
| PathFilter.WildcardIsNotASegment | agent.py:121 | a `*` in an exclusion does not stand for a path segment: `a*b` never excludes `a` + segment + `b` |
| PathFilter.SegmentWildcardExample | agent.py:116-127 | `/data/session/cache/x.txt` is monitored despite the exclusion `/data/*/cache` |
| PathFilter.UnlistedExtensionRejected | agent.py:125-127 | `/data/readme.md` is rejected by the list `[".txt"]` |
| FileMonitor.OnCreated | agent.py:101-104 | no call for a directory; otherwise a `file_created` call with the source path iff the source path is monitored |
| FileMonitor.OnModified | agent.py:106-109 | no call for a directory; otherwise a `file_modified` call with the source path iff the source path is monitored |
| FileMonitor.OnMoved | agent.py:111-114 | no call for a directory; otherwise a `file_moved` call with the destination path iff the destination is monitored |
| FileMonitor.Dispatch | agent.py:101-114 | a directory event gives no call; otherwise the handler calls `handle_file_event` with its event-type string and its subject path (the destination for a move) iff that path is monitored |
| FileMonitor.DirectoriesNeverDispatched | agent.py:101-114 | directory events never reach `handle_file_event` |
| FileMonitor.MoveDecidedByDestination | agent.py:111-114 | a move's source path plays no part, and the path reported is the destination |
| FileMonitor.HandlersAgree | agent.py:101-114 | when source and destination agree, all three handlers pass the event on or none does |
| FileMonitor.EventTypeNamesDistinct | agent.py:101-114 | the three event-type strings are pairwise distinct |
| Classifier.RulePosition | agent.py:283-306 | each label has its place in the rule order PAN, SSN, EMAIL, API_KEY, PRIVATE_KEY |
| Classifier.IsSpace | agent.py:283 | `\s` on ASCII: tab to carriage return (9-13), the separators 28-31 and space |
| Classifier.IsWordChar | agent.py:283 | `\w` on ASCII: a letter, a digit or `_` |
| Classifier.WordBoundary | agent.py:283 | `\b` at a position: exactly one of the two neighbouring characters is a word character, and the ends of the text count as non-word |
| Classifier.HasPan | agent.py:283 | `\b\d{4}[\s-]?\d{4}[\s-]?\d{4}[\s-]?\d{4}\b` occurs: some position starts four groups of four digits, each of the three gaps empty or one whitespace or `-`, with a word boundary on both sides |
| Classifier.HasSsn | agent.py:288 | `\b\d{3}-\d{2}-\d{4}\b` occurs: three digits, `-`, two digits, `-`, four digits, between word boundaries |
| Classifier.HasEmail | agent.py:293 | the e-mail expression occurs: word boundary, a non-empty run of `[A-Za-z0-9._%+-]`, `@`, a non-empty run of `[A-Za-z0-9.-]`, `.`, at least two characters each an ASCII letter or a literal bar (the class `A-Z`, bar, `a-z`), word boundary |
| Classifier.HasCredentialMarker | agent.py:299 | ignoring case, one of these occurs: `api` then `key`, `secret` then `key`, or `access` then `token`, each pair joined by at most one `_` or `-`; or `password`, any whitespace, then `=` |
| Classifier.HasPrivateKeyHeader | agent.py:304 | one of the four literal headers `-----BEGIN RSA/DSA/EC/OPENSSH PRIVATE KEY-----` occurs as a substring |
| Classifier.Detect | agent.py:283-304 | which of the five searches succeed on the content |
| Classifier.FinalSeverity | agent.py:280-306 | the severity the assignments leave: critical with PRIVATE_KEY, else high with API_KEY, else critical with PAN or SSN, else medium with EMAIL, else low |
| Classifier.ClassificationOf | agent.py:308-313 | the result dictionary: the fired labels in rule order, the final severity, score 0.9 iff labels are present, method "regex" |
| Classifier.Fired | agent.py:279-306 | the labels appended are at most the rules tried |
| Classifier.Classify | agent.py:275-313 | the step-by-step appends and severity overwrites compute `ClassificationOf(Detect(content))` |
| Classifier.FiredMembership | agent.py:279-306 | a label is appended iff its rule is among those tried and matched |
| Classifier.FiredKeepsOrder | agent.py:279-306 | the appended labels keep the order of the rules tried |
| Classifier.LabelsAreTheMatchedRules | agent.py:279-306 | a label is present iff its rule matched; labels are in rule order and duplicate-free |
| Classifier.LowSeverityIffNoLabels | agent.py:280-311 | severity stays "low" iff no label was appended; the score is 0.9 iff there are labels |
| Classifier.PrivateKeyIsCritical | agent.py:304-306 | content with a private-key header is critical and labelled PRIVATE_KEY |
| Classifier.PrivateKeyHeaderInContext | agent.py:304 | a header is found whatever text surrounds it (a substring search) |
| Classifier.HighestSeverity | agent.py:283-306 | the most severe nominal severity among the labels, or low |
| Classifier.FinalSeverityVersusMaximum | agent.py:283-306 | the final severity differs from the maximum iff API_KEY and (PAN or SSN) match without PRIVATE_KEY; it is never above the maximum |
| Classifier.SeverityNotMonotonic | agent.py:283-301 | PAN alone is critical; PAN with API_KEY is high |
| Classifier.SsnNeedsHyphen | agent.py:288 | the SSN pattern only matches content containing `-` |
| Classifier.EmailNeedsAt | agent.py:293 | the e-mail pattern only matches content containing `@` |
| Classifier.PrivateKeyHeaderNeedsHyphen | agent.py:304 | a private-key header only occurs in content containing `-` |
| Classifier.CredentialNeedsKOrEquals | agent.py:299 | every credential marker contains a `k` (either case) or an `=` |
| Classifier.CardNumberExample | agent.py:283-313 | "4111 1111 1111 1111" matches PAN alone and is critical with labels [PAN] |
| Classifier.CardNumberWithCredentialExample | agent.py:283-313 | "4111 1111 1111 1111 api_key" matches PAN and API_KEY and is high |
| Classifier.FiredAlone | agent.py:279-306 | when exactly one rule matches, the labels are that rule's label alone |
| Config.StrList | agent.py:51-61 | a list of strings as JSON keeps length and elements |
| Config.DefaultConfig | agent.py:44-67 | the built-in defaults: server URL, fresh agent id, host name, heartbeat 60, the monitoring section and the classification section with a 10 MB ceiling |
| Config.Get | agent.py:89-91 | `config.get(key, default)`: the stored value, or the default when the key is absent |
| Config.Update | agent.py:73 | `dict.update`: the keys are the union; a loaded key replaces the default whole; other defaults are kept |
| Config.LoadConfig | agent.py:44-87 | loading keeps every default key; a missing or unreadable file gives the defaults |
| Config.SectionGet | agent.py:119 | `cfg.get(section, {}).get(key, d)` gives `d` when the section is absent |
| Config.Strings | agent.py:120-122 | a JSON list yields its strings exactly when all its elements are strings |
| Config.ExcludePaths | agent.py:119 | `monitoring.exclude_paths`, by default `[]`, as a list of strings |
| Config.FileExtensions | agent.py:126 | `monitoring.file_extensions`, by default `[]`, as a list of strings |
| Config.MonitoredPaths | agent.py:215 | `monitoring.monitored_paths`, by default `[]`, as a list of strings |
| Config.Truthy | agent.py:151 | Python truthiness of a JSON value: false for null, false, 0, "", [] and {} |
| Config.FileSystemEnabled | agent.py:151 | `monitoring.file_system`, by default true, read by truthiness |
| Config.MaxFileSizeBytes | agent.py:231 | without a "classification" key the ceiling is 10 × 1024 × 1024 bytes |
| Config.StringsOfStrList | agent.py:51-61 | the string lists of the defaults read back unchanged |
| Config.UpdateIdempotent | agent.py:73 | updating twice with the same document is the same as once |
| Config.DefaultListsWhenSectionAbsent | agent.py:49-73 | without "monitoring" in the file, the default roots, exclusions, extensions and `file_system = true` apply |
| Config.SectionOverrideDropsDefaults | agent.py:73 | a file's "monitoring" object replaces the default one; lists it omits read as empty |
| Config.DefaultCeiling | agent.py:63-66 | the default ceiling is 10485760 bytes |
| Config.DefaultExclusionsNeedDoubleSlash | agent.py:56-60 | no default exclusion excludes a path without `//` |
| Config.HomeWildcardNeedsDoubleSlash | agent.py:57-59 | `/home/*` + tail beginning with `/` strips to a prefix containing `//` |
| EventBuilder.Window | agent.py:326-330 | the classified text is the prefix of the file's text of length min(length, 100000) |
| EventBuilder.Admitted | agent.py:231-235 | the file is processed iff its size and the ceiling are known and the size is not larger than the ceiling |
| EventBuilder.BuildRecord | agent.py:251-268 | the event dictionary: id, "file", the event type, agent id, "agent", `user@host`, user, `"<type>: <name>"`, the severity string, "logged", path, name, size, hash, classification, timestamp |
| EventBuilder.HandleFileEvent | agent.py:226-273 | an event record is produced iff the size and ceiling are known and size ≤ ceiling; it is the record built from the classification of the window |
| EventBuilder.RecordOfFile | agent.py:251-268 | for `dir/n`: file name `n`, description `"<type>: n"`, subtype is the event type, type "file", action "logged", source "agent", e-mail `user@host` |
| EventBuilder.RecordNameIsOneComponent | agent.py:259-263 | the file name has no `/` and ends the description |
| EventBuilder.RecordSeverityLowIffUnlabelled | agent.py:260 | the record's severity is "low" iff the window produced no label |
| EventBuilder.CeilingIsInclusive | agent.py:231-235 | by default a file of exactly 10 MiB is processed and one byte more is skipped |
| EventBuilder.FailedLookupsProcessNothing | agent.py:228-235 | a failed size lookup or a non-numeric ceiling produces no record |
| EventBuilder.AdmittedUnderLargerCeiling | agent.py:231-235 | whatever is processed under a ceiling is processed under any larger one |
| Delivery.RegistrationAccepted | agent.py:203 | registration succeeds iff the status is 200 or 201 |
| Delivery.EventAccepted | agent.py:343 | an event send succeeds iff the status is 200 or 201 |
| Delivery.HeartbeatAccepted | agent.py:378 | an accepted heartbeat status is also an accepted event status |
| Delivery.AcceptanceRules | agent.py:378 | registration and events accept the same statuses; heartbeats accept those except 201 |
| Agent.WatchersFor | agent.py:215-224 | every watcher started is recursive, running, on a listed, existing path; no more watchers than paths |
| Agent.DlpAgent.constructor | agent.py:135-138 | a new agent is not running and has no watchers; id and server URL are read from the configuration |
| Agent.DlpAgent.StartFileMonitoring | agent.py:213-224 | appends `WatchersFor(monitored_paths)` to the watchers, keeps `running`; a failed lookup starts nothing |
| Agent.DlpAgent.Start | agent.py:143-152 | sets `running`; starts file monitoring iff `file_system` is truthy; a failed lookup is reported and starts nothing |
| Agent.DlpAgent.Stop | agent.py:167-171 | clears `running` and stops every watcher, keeping the list and each watcher's root |
| Agent.WatchersForAppend | agent.py:215-224 | the watchers for a concatenation of lists are the concatenation of the watchers |
| Agent.WatchedIffListedAndExisting | agent.py:215-224 | a path gets a watcher iff it is listed and exists |
| Agent.AllExistingAllWatched | agent.py:215-224 | when all listed paths exist, the watchers follow the list one for one |
| Agent.NoneExistingNoneWatched | agent.py:215-224 | when no listed path exists, nothing is watched |
| Agent.WatchersKeepListOrder | agent.py:215-224 | watchers appear in the order of their paths in the list |
| Agent.ExistingInOrder | agent.py:215-224 | the listed paths that exist, front to back, repetitions included |
| Agent.WatcherRootsAreExistingPaths | agent.py:215-224 | the watchers are exactly one recursive running watcher per listed existing path, in list order: a root listed twice gets two, a missing root none |
| Agent.DefaultRootsListed | agent.py:51-55 | with no "monitoring" key in the file, the monitored paths are /home, /var/www, /opt/data |
| Agent.DefaultRootsWatched | agent.py:215-224 | when the three default roots exist, monitoring them starts exactly three recursive watchers, one per root, in order |

## Left out

- HTTP transport of `register_agent`, `send_event` and `send_heartbeat` (`requests`): network I/O. Only the status acceptance rules are modelled (`Delivery`), and the registration payload is not built.
- The watchdog `Observer` library, the heartbeat thread and its sleep loop, and the keep-alive loop in `start` that waits for `running` to clear or for Ctrl-C: foreign library code and concurrency. A watcher is a value `(root, recursive, active)`; `Start` is modelled up to that loop.
- SHA-256 hashing (`_calculate_file_hash`): a foreign cryptographic call over file I/O. The digest is an opaque string parameter.
- File reads, `os.path.getsize`, `os.path.exists`, and JSON config load and save, including creating the config directory: filesystem I/O. File text, size and existence are parameters, and `LoadConfig` takes the parsed document, or None for a missing or unreadable file.
- `pwd`, `socket`, `platform`, `uuid` and `datetime.utcnow`: environment and clock. They are parameters.
- The 0.9 and 0.1 scores are floats. They are the two tags `NinetyPercent` and `TenPercent`.
- JSON numbers other than integers, and JSON top-level documents that are not objects, are not modelled.
- Logging throughout, and run_agent.py, which only rewires logging and starts the agent.
- Classifier.IsDigit, Classifier.IsWordChar, Classifier.IsSpace: `\d`, `\w`, `\s` and `\b` are modelled on ASCII only. Python's Unicode classes also accept other digits, letters and spaces.
- PathFilter.Lower: lower-cases ASCII A-Z only; Unicode case mapping is not modelled. The same holds for `re.IGNORECASE` in Classifier.LiteralAtIgnoringCase.
- PathFilter.ShouldMonitor and the FileMonitor handlers take the exclusion and extension lists already looked up (`Config.ExcludePaths`, `Config.FileExtensions`). A lookup that raises inside the handler is not modelled. Neither is Python's behaviour for a non-list value, such as substring tests against a string.
- Config.Strings treats a list with a non-string element as a failed lookup. Python does not always fail there: `start_file_monitoring` hands each element to `os.path.exists` in turn, and `ext in monitored_exts` compares the extension with each element.
- Agent.DlpAgent.StartFileMonitoring and Agent.DlpAgent.Start report a failed lookup and start nothing when `monitored_paths` is a string or an object. Python iterates such a value: the characters of a string, so `"/data"` starts a recursive watcher on `/`, or the keys of an object. The model has no order for an object's keys, so this iteration is not modelled.
- Config.FileExtensions and Config.ExcludePaths read a non-list value, or a list with a non-string element, as a failed lookup. In Python, a string allowlist makes `ext in monitored_exts` a substring test, and `[".txt", 5]` still matches ".txt". A string exclusion list is iterated character by character, and a non-string exclusion raises only when it is reached.
- EventBuilder.HandleFileEvent leaves out a failure of the user-name lookup after classification, which would also produce no record.
- `Classifier.HasEmail` follows the e-mail expression literally, including the `|` inside its top-level-domain class. Its greedy backtracking is modelled as an existential over split positions, which matches the same set of strings.
