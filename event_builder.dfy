/** The body of `handle_file_event` (agent.py:226-273): the size gate, the content
    window, classification, and the event record sent to the server. The file's size,
    digest and text, the current user, the host name, the event id and the clock are
    given as parameters. */
module EventBuilder {
  import opened Wrappers
  import PathFilter
  import Classifier
  import Config

  /** Who and where: the agent id, the current user name and the host name. */
  datatype Identity = Identity(agentId: Config.Json, username: string, hostname: string)

  /** The event dictionary passed to `send_event`. */
  datatype EventRecord = EventRecord(
    eventId: string,
    eventType: string,
    eventSubtype: string,
    agentId: Config.Json,
    sourceType: string,
    userEmail: string,
    username: string,
    description: string,
    severity: string,
    action: string,
    filePath: string,
    fileName: string,
    fileSize: nat,
    fileHash: string,
    classification: Classifier.Classification,
    timestamp: string)

  /** At most this many characters of a file are classified. */
  const ContentWindow: nat := 100000

  /** `f.read(max_bytes)`: the first `ContentWindow` characters of the text. */
  function Window(text: string): (w: string)
    ensures w <= text
    ensures |w| == if |text| <= ContentWindow then |text| else ContentWindow
  {
    if |text| <= ContentWindow then text else text[..ContentWindow]
  }

  /** A file of this size is processed under this configuration: the ceiling is
      inclusive, and a failed size or ceiling lookup processes nothing. */
  predicate Admitted(cfg: Config.Settings, size: Option<nat>)
  {
    match (size, Config.MaxFileSizeBytes(cfg))
    case (Some(n), Some(ceiling)) => !(n > ceiling)
    case _ => false
  }

  /** The record assembled for a processed file. */
  function BuildRecord(identity: Identity, eventType: string, path: string, size: nat,
                       hash: string, classification: Classifier.Classification,
                       eventId: string, timestamp: string): EventRecord
  {
    var name := PathFilter.Name(path);
    EventRecord(
      eventId := eventId,
      eventType := "file",
      eventSubtype := eventType,
      agentId := identity.agentId,
      sourceType := "agent",
      userEmail := identity.username + "@" + identity.hostname,
      username := identity.username,
      description := eventType + ": " + name,
      severity := Classifier.SeverityName(classification.severity),
      action := "logged",
      filePath := path,
      fileName := name,
      fileSize := size,
      fileHash := hash,
      classification := classification,
      timestamp := timestamp)
  }

  /** `handle_file_event`: `size` is None when the size lookup fails. The result is the
      record sent, or None when the file is skipped or the handler fails. */
  method HandleFileEvent(cfg: Config.Settings, identity: Identity, eventType: string,
                         path: string, size: Option<nat>, hash: string, text: string,
                         eventId: string, timestamp: string)
    returns (r: Option<EventRecord>)
    ensures r.Some? <==> Admitted(cfg, size)
    ensures (size.Some? && Config.MaxFileSizeBytes(cfg).Some? &&
             size.value > Config.MaxFileSizeBytes(cfg).value) ==> r.None?
    ensures r.Some? ==> r.value == BuildRecord(identity, eventType, path, size.value, hash,
                                               Classifier.ClassificationOf(Classifier.Detect(Window(text))),
                                               eventId, timestamp)
  {
    if size.None? {
      return None;
    }
    var ceiling := Config.MaxFileSizeBytes(cfg);
    if ceiling.None? {
      return None;
    }
    if size.value > ceiling.value {
      return None;
    }
    var content := Window(text);
    var classification := Classifier.Classify(content);
    r := Some(BuildRecord(identity, eventType, path, size.value, hash, classification,
                          eventId, timestamp));
  }

  // ---------------------------------------------------------------------------
  // Properties of the record
  // ---------------------------------------------------------------------------

  /** For a file `n` in directory `dir`, the record names the file, describes the event
      by its type and name, tags itself as a logged file event from the agent, and
      addresses the user at the host. */
  lemma {:induction false} RecordOfFile(identity: Identity, eventType: string, dir: string, n: string,
                                        size: nat, hash: string, c: Classifier.Classification,
                                        eventId: string, timestamp: string)
    requires '/' !in n && n != "" && n != "."
    ensures var r := BuildRecord(identity, eventType, dir + "/" + n, size, hash, c, eventId, timestamp);
      && r.fileName == n
      && r.description == eventType + ": " + n
      && r.filePath == dir + "/" + n
      && r.eventType == "file" && r.action == "logged" && r.sourceType == "agent"
      && r.eventSubtype == eventType
      && r.userEmail == identity.username + "@" + identity.hostname
  {
    PathFilter.NameOfJoin(dir, n);
  }

  /** The record's file name never holds a '/', and the description always ends with it. */
  lemma RecordNameIsOneComponent(identity: Identity, eventType: string, path: string,
                                 size: nat, hash: string, c: Classifier.Classification,
                                 eventId: string, timestamp: string)
    ensures var r := BuildRecord(identity, eventType, path, size, hash, c, eventId, timestamp);
      && '/' !in r.fileName
      && r.description == eventType + ": " + r.fileName
  {
  }

  /** The record's severity string is "low" exactly when no label was found in the
      classified window. */
  lemma RecordSeverityLowIffUnlabelled(identity: Identity, eventType: string, path: string,
                                       size: nat, hash: string, text: string,
                                       eventId: string, timestamp: string)
    ensures var c := Classifier.ClassificationOf(Classifier.Detect(Window(text)));
      var r := BuildRecord(identity, eventType, path, size, hash, c, eventId, timestamp);
      r.severity == "low" <==> c.labels == []
  {
    var c := Classifier.ClassificationOf(Classifier.Detect(Window(text)));
    Classifier.LowSeverityIffNoLabels(Classifier.Detect(Window(text)));
    assert Classifier.SeverityName(c.severity) == "low" <==> c.severity == Classifier.Low;
  }

  /** Under the default configuration a file of exactly 10 MiB is processed and one byte
      more is skipped. */
  lemma CeilingIsInclusive(agentId: string, hostname: string)
    ensures Admitted(Config.DefaultConfig(agentId, hostname), Some(10485760))
    ensures !Admitted(Config.DefaultConfig(agentId, hostname), Some(10485761))
  {
    Config.DefaultCeiling(agentId, hostname);
  }

  /** A failed size lookup, or a ceiling that is not a number, processes nothing. */
  lemma FailedLookupsProcessNothing(cfg: Config.Settings, size: Option<nat>)
    requires size.None? || Config.MaxFileSizeBytes(cfg).None?
    ensures !Admitted(cfg, size)
  {
  }

  /** The decision grows with the ceiling: whatever is admitted under a ceiling is
      admitted under any larger one. */
  lemma AdmittedUnderLargerCeiling(cfg1: Config.Settings, cfg2: Config.Settings, size: nat)
    requires Config.MaxFileSizeBytes(cfg1).Some? && Config.MaxFileSizeBytes(cfg2).Some?
    requires Config.MaxFileSizeBytes(cfg1).value <= Config.MaxFileSizeBytes(cfg2).value
    ensures Admitted(cfg1, Some(size)) ==> Admitted(cfg2, Some(size))
  {
  }
}
