/**
 * DefaultStreamingMessageQueue: a named queue backed by a durable Chronicle log.  Initialising
 * it reads its settings (deletion on exit, base path, cycle format, rolling interval, wait
 * strategy), then opens the log and creates one producer and one consumer that share the
 * queue's single wait strategy.  The Chronicle log is foreign: it is represented by its
 * configuration, a closed flag and, on the producer side, the sequence of inserted messages.
 */
module ChronicleQueue {
  import opened Common
  import opened Text
  import opened StreamingMessage

  const CFG_CHRONICLE_QUEUE_PATH: string := "queue.chronicle.path"
  /** The key is spelled "deleteOnExist" in the source; it is kept as written. */
  const CFG_CHRONICLE_QUEUE_DELETE_ON_EXIT: string := "queue.chronicle.deleteOnExist"
  const CFG_CHRONICLE_QUEUE_ROLLING_INTERVAL: string := "queue.chronicle.rollingInterval"
  const CFG_CHRONICLE_QUEUE_CYCLE_FORMAT: string := "queue.chronicle.cycleFormat"
  const CFG_QUEUE_MESSAGE_WAIT_STRATEGY: string := "queue.message.waitStrategy"

  const MILLIS_PER_MINUTE: int := 60_000
  /** TimeUnit.MINUTES.toMillis(60) */
  const DEFAULT_ROLLING_INTERVAL: int := 3_600_000
  const DEFAULT_CYCLE_FORMAT: string := "yyyy-MM-dd-HH-mm"

  datatype WaitStrategyKind = Blocking | Sleeping | DirectPass

  /** The STRATEGY_NAME constants of the DirectPass and Sleeping strategy classes. */
  datatype StrategyNames = StrategyNames(directPass: string, sleeping: string)

  /** What the queue takes from its surroundings: the java.io.tmpdir property, File.separator
      and VanillaChronicle.MIN_CYCLE_LENGTH. */
  datatype Platform = Platform(tmpDir: string, separator: string, minCycleLength: int)

  datatype QueueInitError = PropertiesMissing | QueueIdMissing | ChronicleOpenFailed(path: string)

  /** deleteOnExit is switched off only by a setting that reads "false", ignoring case and
      surrounding blanks; nothing switches it back on. */
  function DeleteOnExitSetting(setting: Option<string>, current: bool): (r: bool)
    ensures r ==> current
    ensures r != current <==> current && EqualsIgnoreCase(Trim(setting), Some("false"))
    ensures setting.None? ==> r == current
  {
    if EqualsIgnoreCase(Trim(setting), Some("false")) then false else current
  }

  /** The base path: the trimmed, lower-cased setting, or the temp directory when that is blank. */
  function BasePath(setting: Option<string>, tmpDir: string): (r: string)
    ensures IsBlank(LowerCase(Trim(setting))) ==> r == tmpDir
    ensures !IsBlank(LowerCase(Trim(setting))) ==>
      && setting.Some? && |r| <= |setting.value|
      && HasNoUpper(r) && !IsBlank(Some(r))
      && !Trimmed(r[0]) && !Trimmed(r[|r| - 1])
      && var a := TrimFrom(setting.value, 0);
        && a + |r| <= |setting.value|
        && (forall k :: 0 <= k < a ==> Trimmed(setting.value[k]))
        && (forall k :: 0 <= k < |r| ==> r[k] == LowerChar(setting.value[a + k]))
        && (forall k :: a + |r| <= k < |setting.value| ==> Trimmed(setting.value[k]))
  {
    var p := LowerCase(Trim(setting));
    if IsBlank(p) then tmpDir else p.value
  }

  /** A base path read from settings is already in normal form: reading it back gives it again. */
  lemma {:induction false} BasePathNormalForm(setting: Option<string>, tmpDir: string, tmpDir': string)
    requires !IsBlank(LowerCase(Trim(setting)))
    ensures BasePath(Some(BasePath(setting, tmpDir)), tmpDir') == BasePath(setting, tmpDir)
  {
    var r := BasePath(setting, tmpDir);
    TrimStrOfTrimmed(r);
    LowerStrOfLower(r);
    assert LowerCase(Trim(Some(r))) == Some(r);
  }

  /** The log's location: the base path, a separator unless the base path already ends with
      one, then the queue id. */
  function ChroniclePath(basePath: string, separator: string, id: string): string
  {
    (if EndsWith(basePath, separator) then basePath else basePath + separator) + id
  }

  /** The path starts with the base path and ends with the id, with a separator just before the
      id, and it adds the separator only when the base path does not already end with one. */
  lemma ChroniclePathShape(basePath: string, separator: string, id: string)
    ensures var r := ChroniclePath(basePath, separator, id);
      && |r| == |basePath| + |id| + (if EndsWith(basePath, separator) then 0 else |separator|)
      && r[..|basePath|] == basePath
      && EndsWith(r, id)
      && EndsWith(r[..|r| - |id|], separator)
  {
    var r := ChroniclePath(basePath, separator, id);
    var dir := if EndsWith(basePath, separator) then basePath else basePath + separator;
    assert dir[..|basePath|] == basePath;
    assert r[..|dir|] == dir;
    assert r[|dir|..] == id;
  }

  /** Appending the separator by hand does not double it. */
  lemma ChroniclePathSeparatorOnce(basePath: string, separator: string, id: string)
    requires !EndsWith(basePath, separator)
    ensures ChroniclePath(basePath + separator, separator, id) == ChroniclePath(basePath, separator, id)
  {
    assert EndsWith(basePath + separator, separator) by {
      assert (basePath + separator)[|basePath|..] == separator;
    }
  }

  /** TimeUnit.MINUTES.toMillis: multiplication by 60000, saturating at the `long` range. */
  function MinutesToMillis(m: int): (r: int)
    ensures LONG_MIN <= r <= LONG_MAX
    ensures -(LONG_MAX / MILLIS_PER_MINUTE) <= m <= LONG_MAX / MILLIS_PER_MINUTE ==> r == m * MILLIS_PER_MINUTE
    ensures m > LONG_MAX / MILLIS_PER_MINUTE ==> r == LONG_MAX
    ensures m < -(LONG_MAX / MILLIS_PER_MINUTE) ==> r == LONG_MIN
  {
    if m > LONG_MAX / MILLIS_PER_MINUTE then LONG_MAX
    else if m < -(LONG_MAX / MILLIS_PER_MINUTE) then LONG_MIN
    else m * MILLIS_PER_MINUTE
  }

  lemma MinutesToMillisMonotone(a: int, b: int)
    requires a <= b
    ensures MinutesToMillis(a) <= MinutesToMillis(b)
  {
  }

  /** The rolling interval: the setting read as minutes and converted to milliseconds, raised to
      the minimum cycle length when below it; a missing or unparsable setting keeps `current`. */
  function RollingInterval(setting: Option<string>, minCycleLength: int, current: int): (r: int)
    ensures ParseLong(Trim(setting)).None? ==> r == current
    ensures ParseLong(Trim(setting)).Some? ==>
      var ms := MinutesToMillis(ParseLong(Trim(setting)).value);
      r >= minCycleLength && r >= ms && (r == ms || r == minCycleLength)
  {
    match ParseLong(Trim(setting))
    case None => current
    case Some(minutes) =>
      var ms := MinutesToMillis(minutes);
      if ms < minCycleLength then minCycleLength else ms
  }

  /** A plain decimal number of minutes whose length in milliseconds reaches the minimum is taken as is. */
  lemma RollingIntervalOfMinutes(n: nat, minCycleLength: int, current: int)
    requires n <= LONG_MAX / MILLIS_PER_MINUTE && n * MILLIS_PER_MINUTE >= minCycleLength
    ensures RollingInterval(Some(NatToString(n)), minCycleLength, current) == n * MILLIS_PER_MINUTE
  {
    var s := NatToString(n);
    TrimStrOfTrimmed(s);
    ParseLongOfNatToString(n);
  }

  /** The cycle format: the trimmed setting (the default when the key is absent), unless that is
      blank, in which case the current format stays. */
  function CycleFormat(setting: Option<string>, current: string): (r: string)
    ensures setting.None? ==> r == DEFAULT_CYCLE_FORMAT
    ensures setting.Some? ==>
      (r == TrimStr(setting.value) && !IsBlank(Some(r))) || (r == current && IsBlank(Some(TrimStr(setting.value))))
  {
    var raw := if setting.Some? then setting.value else DEFAULT_CYCLE_FORMAT;
    var trimmed := TrimStr(raw);
    assert setting.None? ==> trimmed == DEFAULT_CYCLE_FORMAT by {
      TrimStrOfTrimmed(DEFAULT_CYCLE_FORMAT);
    }
    assert !IsBlank(Some(DEFAULT_CYCLE_FORMAT)) by { assert !IsWhitespace(DEFAULT_CYCLE_FORMAT[0]); }
    if IsBlank(Some(trimmed)) then current else trimmed
  }

  /** getWaitStrategy: DirectPass or Sleeping when the name matches theirs ignoring case,
      Blocking for anything else, null included. */
  function SelectWaitStrategy(name: Option<string>, names: StrategyNames): (r: WaitStrategyKind)
    ensures r == DirectPass <==> EqualsIgnoreCase(name, Some(names.directPass))
    ensures r == Sleeping <==> !EqualsIgnoreCase(name, Some(names.directPass)) && EqualsIgnoreCase(name, Some(names.sleeping))
    ensures name.None? ==> r == Blocking
  {
    if EqualsIgnoreCase(name, Some(names.directPass)) then DirectPass
    else if EqualsIgnoreCase(name, Some(names.sleeping)) then Sleeping
    else Blocking
  }

  /** Names that differ only in case select the same strategy. */
  lemma SelectWaitStrategyIgnoresCase(a: string, b: string, names: StrategyNames)
    requires LowerStr(a) == LowerStr(b)
    ensures SelectWaitStrategy(Some(a), names) == SelectWaitStrategy(Some(b), names)
  {
  }

  /** The settings initialize reads, each from its own key, given the values held before. */
  datatype QueueSettings = QueueSettings(
    deleteOnExit: bool, basePath: string, cycleFormat: string, rollingInterval: int, waitStrategy: WaitStrategyKind)

  function ReadSettings(props: map<string, string>, platform: Platform, names: StrategyNames,
                        deleteOnExit: bool, cycleFormat: string, rollingInterval: int): QueueSettings
  {
    QueueSettings(
      DeleteOnExitSetting(GetProperty(props, CFG_CHRONICLE_QUEUE_DELETE_ON_EXIT), deleteOnExit),
      BasePath(GetProperty(props, CFG_CHRONICLE_QUEUE_PATH), platform.tmpDir),
      CycleFormat(GetProperty(props, CFG_CHRONICLE_QUEUE_CYCLE_FORMAT), cycleFormat),
      RollingInterval(GetProperty(props, CFG_CHRONICLE_QUEUE_ROLLING_INTERVAL), platform.minCycleLength, rollingInterval),
      SelectWaitStrategy(Trim(GetProperty(props, CFG_QUEUE_MESSAGE_WAIT_STRATEGY)), names))
  }

  /** A queue-side wait strategy; only forceLockRelease is observed. */
  class QueueWaitStrategy {
    const kind: WaitStrategyKind
    var lockReleases: nat

    constructor (kind: WaitStrategyKind)
      ensures this.kind == kind && lockReleases == 0
    {
      this.kind := kind;
      lockReleases := 0;
    }

    method ForceLockRelease()
      modifies this
      ensures lockReleases == old(lockReleases) + 1
    {
      lockReleases := lockReleases + 1;
    }
  }

  /** The durable log: its location and cycle settings, and whether it was closed. */
  class Chronicle {
    const path: string
    const cycleLength: int
    const cycleFormat: string
    var closed: bool

    constructor (path: string, cycleLength: int, cycleFormat: string)
      ensures this.path == path && this.cycleLength == cycleLength && this.cycleFormat == cycleFormat
      ensures !closed
    {
      this.path := path;
      this.cycleLength := cycleLength;
      this.cycleFormat := cycleFormat;
      closed := false;
    }

    method Close(fails: bool)
      modifies this
      ensures closed == (old(closed) || !fails)
    {
      if !fails {
        closed := true;
      }
    }
  }

  /** Write handle of a queue: every message passed to insert, in order. */
  class QueueProducer {
    const queueId: Option<string>
    const chronicle: Chronicle?
    const waitStrategy: QueueWaitStrategy
    var inserted: seq<Option<StreamingDataMessage>>

    constructor (queueId: Option<string>, chronicle: Chronicle?, waitStrategy: QueueWaitStrategy)
      ensures this.queueId == queueId && this.chronicle == chronicle && this.waitStrategy == waitStrategy
      ensures inserted == []
    {
      this.queueId := queueId;
      this.chronicle := chronicle;
      this.waitStrategy := waitStrategy;
      inserted := [];
    }

    function GetWaitStrategy(): QueueWaitStrategy { waitStrategy }

    method Insert(m: Option<StreamingDataMessage>)
      modifies this
      ensures inserted == old(inserted) + [m]
    {
      inserted := inserted + [m];
    }
  }

  /** Read handle of a queue. */
  class QueueConsumer {
    const queueId: Option<string>
    const chronicle: Chronicle?
    const waitStrategy: QueueWaitStrategy

    constructor (queueId: Option<string>, chronicle: Chronicle?, waitStrategy: QueueWaitStrategy)
      ensures this.queueId == queueId && this.chronicle == chronicle && this.waitStrategy == waitStrategy
    {
      this.queueId := queueId;
      this.chronicle := chronicle;
      this.waitStrategy := waitStrategy;
    }

    function GetWaitStrategy(): QueueWaitStrategy { waitStrategy }
  }

  class DefaultStreamingMessageQueue {
    var id: Option<string>
    var basePath: Option<string>
    var deleteOnExit: bool
    var queueRollingInterval: int
    var cycleFormat: string
    var chronicle: Chronicle?
    var queueConsumer: QueueConsumer?
    var queueProducer: QueueProducer?
    var queueWaitStrategy: QueueWaitStrategy?
    /** Paths registered with ChronicleTools for deletion on exit. */
    var markedForDeletion: set<string>

    constructor ()
      ensures id.None? && basePath.None? && deleteOnExit
      ensures queueRollingInterval == DEFAULT_ROLLING_INTERVAL && cycleFormat == DEFAULT_CYCLE_FORMAT
      ensures chronicle == null && queueConsumer == null && queueProducer == null && queueWaitStrategy == null
      ensures markedForDeletion == {}
    {
      id := None;
      basePath := None;
      deleteOnExit := true;
      queueRollingInterval := DEFAULT_ROLLING_INTERVAL;
      cycleFormat := DEFAULT_CYCLE_FORMAT;
      chronicle := null;
      queueConsumer := null;
      queueProducer := null;
      queueWaitStrategy := null;
      markedForDeletion := {};
    }

    method SetId(id: Option<string>)
      modifies this`id
      ensures this.id == id
    {
      this.id := id;
    }

    function GetId(): Option<string>
      reads this
    {
      id
    }

    /** Reads the settings in source order, then opens the log; `openFails` stands for the
        IOException of the Chronicle builder, which the source rethrows as a RuntimeException.
        The settings are stored before the log is opened, so they stay even when opening fails. */
    method Initialize(properties: Option<map<string, string>>, platform: Platform, names: StrategyNames, openFails: bool)
      returns (outcome: Outcome<QueueInitError>)
      modifies this`deleteOnExit, this`basePath, this`cycleFormat, this`queueRollingInterval, this`queueWaitStrategy
      modifies this`markedForDeletion, this`chronicle, this`queueConsumer, this`queueProducer
      ensures properties.None? ==> outcome == Fail(PropertiesMissing) && unchanged(this)
      ensures properties.Some? && IsBlank(old(id)) ==> outcome == Fail(QueueIdMissing) && unchanged(this)
      ensures properties.Some? && !IsBlank(old(id)) ==>
        && Settings() == ReadSettings(properties.value, platform, names, old(deleteOnExit), old(cycleFormat), old(queueRollingInterval))
        && queueWaitStrategy != null && fresh(queueWaitStrategy) && queueWaitStrategy.lockReleases == 0
        && (deleteOnExit ==> markedForDeletion == old(markedForDeletion) + {Path(platform)})
        && (!deleteOnExit ==> markedForDeletion == old(markedForDeletion))
      ensures properties.Some? && !IsBlank(old(id)) && openFails ==>
        && outcome == Fail(ChronicleOpenFailed(Path(platform)))
        && chronicle == old(chronicle) && queueConsumer == old(queueConsumer) && queueProducer == old(queueProducer)
      ensures properties.Some? && !IsBlank(old(id)) && !openFails ==>
        && outcome == Pass
        && Opened(platform)
        && fresh(chronicle) && fresh(queueProducer) && fresh(queueConsumer)
    {
      if properties.None? {
        return Fail(PropertiesMissing);
      }
      if IsBlank(id) {
        return Fail(QueueIdMissing);
      }
      outcome := Configure(ReadSettings(properties.value, platform, names, deleteOnExit, cycleFormat, queueRollingInterval),
                           platform, openFails);
    }

    /** The part of initialize past its input checks: the settings read are stored, then the
        log is opened. */
    method Configure(settings: QueueSettings, platform: Platform, openFails: bool) returns (outcome: Outcome<QueueInitError>)
      modifies this`deleteOnExit, this`basePath, this`cycleFormat, this`queueRollingInterval, this`queueWaitStrategy
      modifies this`markedForDeletion, this`chronicle, this`queueConsumer, this`queueProducer
      ensures Settings() == settings
      ensures queueWaitStrategy != null && fresh(queueWaitStrategy) && queueWaitStrategy.lockReleases == 0
      ensures deleteOnExit ==> markedForDeletion == old(markedForDeletion) + {Path(platform)}
      ensures !deleteOnExit ==> markedForDeletion == old(markedForDeletion)
      ensures openFails ==>
        && outcome == Fail(ChronicleOpenFailed(Path(platform)))
        && chronicle == old(chronicle) && queueConsumer == old(queueConsumer) && queueProducer == old(queueProducer)
      ensures !openFails ==>
        && outcome == Pass
        && Opened(platform)
        && fresh(chronicle) && fresh(queueProducer) && fresh(queueConsumer)
    {
      ApplySettings(settings);
      outcome := Open(platform, openFails);
    }

    /** Stores the settings read, with a fresh wait strategy of the selected kind. */
    method ApplySettings(settings: QueueSettings)
      modifies this`deleteOnExit, this`basePath, this`cycleFormat, this`queueRollingInterval, this`queueWaitStrategy
      ensures Settings() == settings && basePath.Some?
      ensures queueWaitStrategy != null && fresh(queueWaitStrategy) && queueWaitStrategy.lockReleases == 0
    {
      deleteOnExit := settings.deleteOnExit;
      basePath := Some(settings.basePath);
      cycleFormat := settings.cycleFormat;
      queueRollingInterval := settings.rollingInterval;
      queueWaitStrategy := new QueueWaitStrategy(settings.waitStrategy);
    }

    /** Registers the log's path for deletion when asked to, then opens the log and its two handles. */
    method Open(platform: Platform, openFails: bool) returns (outcome: Outcome<QueueInitError>)
      requires queueWaitStrategy != null
      modifies this`markedForDeletion, this`chronicle, this`queueConsumer, this`queueProducer
      ensures deleteOnExit ==> markedForDeletion == old(markedForDeletion) + {Path(platform)}
      ensures !deleteOnExit ==> markedForDeletion == old(markedForDeletion)
      ensures openFails ==>
        && outcome == Fail(ChronicleOpenFailed(Path(platform)))
        && chronicle == old(chronicle) && queueConsumer == old(queueConsumer) && queueProducer == old(queueProducer)
      ensures !openFails ==>
        && outcome == Pass
        && Opened(platform)
        && fresh(chronicle) && fresh(queueProducer) && fresh(queueConsumer)
    {
      var path := Path(platform);
      if deleteOnExit {
        markedForDeletion := markedForDeletion + {path};
      }
      if openFails {
        return Fail(ChronicleOpenFailed(path));
      }
      chronicle := new Chronicle(path, queueRollingInterval, cycleFormat);
      queueConsumer := new QueueConsumer(id, chronicle, queueWaitStrategy);
      queueProducer := new QueueProducer(id, chronicle, queueWaitStrategy);
      outcome := Pass;
    }

    /** The log is open at the queue's path with the cycle settings held, and the producer and
        the consumer are handles on it for this queue that share its wait strategy. */
    ghost predicate Opened(platform: Platform)
      reads this, chronicle, queueProducer
    {
      && chronicle != null && !chronicle.closed
      && chronicle.path == Path(platform) && chronicle.cycleLength == queueRollingInterval && chronicle.cycleFormat == cycleFormat
      && queueProducer != null && queueProducer.inserted == []
      && queueConsumer != null
      && queueProducer.queueId == id && queueConsumer.queueId == id
      && queueProducer.chronicle == chronicle && queueConsumer.chronicle == chronicle
      && queueProducer.waitStrategy == queueWaitStrategy && queueConsumer.waitStrategy == queueWaitStrategy
    }

    /** The settings currently held. */
    function Settings(): QueueSettings
      reads this`deleteOnExit, this`basePath, this`cycleFormat, this`queueRollingInterval, this`queueWaitStrategy, queueWaitStrategy
    {
      QueueSettings(deleteOnExit, if basePath.Some? then basePath.value else "", cycleFormat, queueRollingInterval,
                    if queueWaitStrategy != null then queueWaitStrategy.kind else Blocking)
    }

    /** Where the log lives: the base path joined with the queue id. */
    function Path(platform: Platform): string
      reads this`basePath, this`id
    {
      ChroniclePath(if basePath.Some? then basePath.value else "", platform.separator, if id.Some? then id.value else "")
    }

    /** The one producer handle; every call returns the same one. */
    function GetProducer(): QueueProducer?
      reads this
    {
      queueProducer
    }

    /** The one consumer handle; every call returns the same one. */
    function GetConsumer(): QueueConsumer?
      reads this
    {
      queueConsumer
    }

    /** Once the log is open, getProducer and getConsumer hand out one producer and one consumer on
        that log, for this queue's id, sharing the queue's wait strategy. */
    lemma OpenedHandles(platform: Platform)
      requires Opened(platform)
      ensures GetProducer() != null && GetConsumer() != null
      ensures GetProducer().chronicle == chronicle && GetConsumer().chronicle == chronicle
      ensures GetProducer().queueId == id && GetConsumer().queueId == id
      ensures GetProducer().waitStrategy == queueWaitStrategy && GetConsumer().waitStrategy == queueWaitStrategy
      ensures GetProducer().inserted == []
    {
    }

    /** insert hands the message to the producer. */
    method Insert(m: Option<StreamingDataMessage>)
      requires queueProducer != null
      modifies queueProducer
      ensures queueProducer.inserted == old(queueProducer.inserted) + [m]
    {
      queueProducer.Insert(m);
    }

    /** Closes the log; the result is true exactly when closing did not fail (`closeFails`
        stands for the IOException of close). */
    method Shutdown(closeFails: bool) returns (ok: bool)
      requires chronicle != null
      modifies chronicle
      ensures ok <==> !closeFails
      ensures ok ==> chronicle.closed
      ensures !ok ==> chronicle.closed == old(chronicle.closed)
    {
      chronicle.Close(closeFails);
      ok := !closeFails;
    }
  }
}
