/** The central debug logger: per-category switches, a master switch, a cap
  * on messages per frame and a time window that drops repeats of the same
  * category and message. The Unity console is modelled as the list of
  * entries written to it. */
module DebugLog {
  import opened Mathf

  datatype DebugCategory =
    Ship | Ocean | Environment | Camera | Input | Physics |
    Performance | UI | Economy | Audio | Networking | System

  /** `System.Enum.GetValues(typeof(DebugCategory))`, in declaration order. */
  const AllCategories: seq<DebugCategory> :=
    [Ship, Ocean, Environment, Camera, Input, Physics, Performance, UI, Economy, Audio, Networking, System]

  /** Every category appears in `AllCategories`. */
  lemma AllCategoriesListed(c: DebugCategory)
    ensures c in AllCategories
  {
    match c
    case Ship => assert AllCategories[0] == c;
    case Ocean => assert AllCategories[1] == c;
    case Environment => assert AllCategories[2] == c;
    case Camera => assert AllCategories[3] == c;
    case Input => assert AllCategories[4] == c;
    case Physics => assert AllCategories[5] == c;
    case Performance => assert AllCategories[6] == c;
    case UI => assert AllCategories[7] == c;
    case Economy => assert AllCategories[8] == c;
    case Audio => assert AllCategories[9] == c;
    case Networking => assert AllCategories[10] == c;
    case System => assert AllCategories[11] == c;
  }

  function CategoryName(c: DebugCategory): string {
    match c
    case Ship => "Ship"
    case Ocean => "Ocean"
    case Environment => "Environment"
    case Camera => "Camera"
    case Input => "Input"
    case Physics => "Physics"
    case Performance => "Performance"
    case UI => "UI"
    case Economy => "Economy"
    case Audio => "Audio"
    case Networking => "Networking"
    case System => "System"
  }

  /** The throttle key `category:message`. */
  function MessageKey(c: DebugCategory, message: string): string {
    CategoryName(c) + ":" + message
  }

  datatype LogType = Log | Warning | Error

  /** One line written to the console (its formatting is not modelled). */
  datatype Entry = Entry(kind: LogType, category: DebugCategory, message: string)

  /** The per-category switches. */
  class DebugSettings {
    var enableShipDebug: bool
    var enableOceanDebug: bool
    var enableEnvironmentDebug: bool
    var enableCameraDebug: bool
    var enableInputDebug: bool
    var enablePhysicsDebug: bool
    var enablePerformanceDebug: bool
    var enableSystemDebug: bool
    var enableUIDebug: bool
    var enableEconomyDebug: bool
    var enableAudioDebug: bool
    var enableNetworkingDebug: bool

    /** The field defaults: ship, ocean, environment, performance, system
      * and economy on; the other six off. */
    constructor ()
      ensures forall c :: Enabled(c) <==> c in {Ship, Ocean, Environment, Performance, System, Economy}
    {
      enableShipDebug := true;
      enableOceanDebug := true;
      enableEnvironmentDebug := true;
      enableCameraDebug := false;
      enableInputDebug := false;
      enablePhysicsDebug := false;
      enablePerformanceDebug := true;
      enableSystemDebug := true;
      enableUIDebug := false;
      enableEconomyDebug := true;
      enableAudioDebug := false;
      enableNetworkingDebug := false;
    }

    /** The switch that governs category `c`. */
    predicate Enabled(c: DebugCategory)
      reads this
    {
      match c
      case Ship => enableShipDebug
      case Ocean => enableOceanDebug
      case Environment => enableEnvironmentDebug
      case Camera => enableCameraDebug
      case Input => enableInputDebug
      case Physics => enablePhysicsDebug
      case Performance => enablePerformanceDebug
      case UI => enableUIDebug
      case Economy => enableEconomyDebug
      case Audio => enableAudioDebug
      case Networking => enableNetworkingDebug
      case System => enableSystemDebug
    }

    /** A category of `cats` that is switched on is counted, and a count
      * equal to the length of `cats` means each of them is on. */
    lemma {:induction false} CountedWhenEnabled(cats: seq<DebugCategory>, c: DebugCategory)
      requires c in cats
      ensures Enabled(c) ==> CountEnabled(cats) >= 1
      ensures CountEnabled(cats) == |cats| ==> Enabled(c)
    {
      var init := cats[..|cats| - 1];
      if c != cats[|cats| - 1] {
        assert c in init by {
          var i :| 0 <= i < |cats| && cats[i] == c;
          assert init[i] == c;
        }
        CountedWhenEnabled(init, c);
      }
    }

    /** How many of `cats` are switched on. */
    function CountEnabled(cats: seq<DebugCategory>): (n: nat)
      reads this
      ensures n <= |cats|
    {
      if cats == [] then 0
      else CountEnabled(cats[..|cats| - 1]) + (if Enabled(cats[|cats| - 1]) then 1 else 0)
    }

    /** Every one of the twelve switches is `b`. */
    ghost predicate AllSwitches(b: bool)
      reads this
      ensures AllSwitches(b) ==> forall c :: Enabled(c) == b
    {
      enableShipDebug == b && enableOceanDebug == b && enableEnvironmentDebug == b &&
      enableCameraDebug == b && enableInputDebug == b && enablePhysicsDebug == b &&
      enablePerformanceDebug == b && enableUIDebug == b && enableEconomyDebug == b &&
      enableAudioDebug == b && enableNetworkingDebug == b && enableSystemDebug == b
    }

    method EnableAll()
      modifies this
      ensures forall c :: Enabled(c)
    {
      enableShipDebug := true;
      enableOceanDebug := true;
      enableEnvironmentDebug := true;
      enableCameraDebug := true;
      enableInputDebug := true;
      enablePhysicsDebug := true;
      enablePerformanceDebug := true;
      enableUIDebug := true;
      enableEconomyDebug := true;
      enableAudioDebug := true;
      enableNetworkingDebug := true;
      enableSystemDebug := true;
      assert AllSwitches(true);
    }

    method DisableAll()
      modifies this
      ensures forall c :: !Enabled(c)
    {
      enableShipDebug := false;
      enableOceanDebug := false;
      enableEnvironmentDebug := false;
      enableCameraDebug := false;
      enableInputDebug := false;
      enablePhysicsDebug := false;
      enablePerformanceDebug := false;
      enableUIDebug := false;
      enableEconomyDebug := false;
      enableAudioDebug := false;
      enableNetworkingDebug := false;
      enableSystemDebug := false;
      assert AllSwitches(false);
    }
  }

  /** With every switch on, all listed categories count; with every switch
    * off, none do. */
  lemma {:induction false} CountAllOrNone(s: DebugSettings, cats: seq<DebugCategory>)
    ensures (forall c :: s.Enabled(c)) ==> s.CountEnabled(cats) == |cats|
    ensures (forall c :: !s.Enabled(c)) ==> s.CountEnabled(cats) == 0
  {
    if cats != [] {
      CountAllOrNone(s, cats[..|cats| - 1]);
    }
  }

  class DebugManager {
    var debugSettings: DebugSettings
    var enableAllDebug: bool
    var maxMessagesPerFrame: int
    var messageThrottleTime: real
    var messagesThisFrame: int
    /** Last time each `category:message` key was logged. */
    var lastMessageTime: map<string, real>
    /** What has been written to the console. */
    var console: seq<Entry>

    /** The inspector defaults: master switch on, 20 messages per frame, a
      * 0.5 s throttle window. */
    constructor ()
      ensures fresh(debugSettings)
      ensures enableAllDebug && maxMessagesPerFrame == 20 && messageThrottleTime == 0.5
      ensures messagesThisFrame == 0 && lastMessageTime == map[] && console == []
    {
      debugSettings := new DebugSettings();
      enableAllDebug := true;
      maxMessagesPerFrame := 20;
      messageThrottleTime := 0.5;
      messagesThisFrame := 0;
      lastMessageTime := map[];
      console := [];
    }

    /** `IsCategoryEnabled`: the category's own switch. An enabled category
      * is counted among the enabled ones, and when all twelve are counted
      * every category is enabled. */
    predicate IsCategoryEnabled(c: DebugCategory)
      reads this, debugSettings
      ensures IsCategoryEnabled(c) ==> debugSettings.CountEnabled(AllCategories) >= 1
      ensures debugSettings.CountEnabled(AllCategories) == |AllCategories| ==> IsCategoryEnabled(c)
    {
      AllCategoriesListed(c);
      debugSettings.CountedWhenEnabled(AllCategories, c);
      debugSettings.Enabled(c)
    }

    /** The sink's effect between two states: the message is dropped, and
      * nothing changes, when this frame's cap was reached or the same key
      * was logged less than the throttle window ago; otherwise the key is
      * stamped with `now`, the entry written and the frame count raised. */
    twostate predicate Sunk(category: DebugCategory, kind: LogType, message: string, now: real)
      reads this
    {
      var key := MessageKey(category, message);
      var dropped := old(messagesThisFrame) >= maxMessagesPerFrame ||
        (key in old(lastMessageTime) && now - old(lastMessageTime)[key] < messageThrottleTime);
      (dropped ==> unchanged(this)) &&
      (!dropped ==>
        lastMessageTime == old(lastMessageTime)[key := now] &&
        console == old(console) + [Entry(kind, category, message)] &&
        messagesThisFrame == old(messagesThisFrame) + 1 &&
        debugSettings == old(debugSettings) && enableAllDebug == old(enableAllDebug) &&
        maxMessagesPerFrame == old(maxMessagesPerFrame) && messageThrottleTime == old(messageThrottleTime))
    }

    /** The common sink: drops a message over this frame's cap or inside
      * its key's throttle window, and otherwise writes it. */
    method LogInternal(category: DebugCategory, kind: LogType, message: string, now: real)
      modifies this`messagesThisFrame, this`lastMessageTime, this`console
      ensures Sunk(category, kind, message, now)
      ensures old(messagesThisFrame) <= maxMessagesPerFrame ==> messagesThisFrame <= maxMessagesPerFrame
    {
      if messagesThisFrame >= maxMessagesPerFrame {
        return;
      }
      var throttleKey := MessageKey(category, message);
      if throttleKey in lastMessageTime {
        if now - lastMessageTime[throttleKey] < messageThrottleTime {
          return;
        }
      }
      lastMessageTime := lastMessageTime[throttleKey := now];
      console := console + [Entry(kind, category, message)];
      messagesThisFrame := messagesThisFrame + 1;
    }

    /** `Log`: subject to the master switch and the category switch. */
    method Log(category: DebugCategory, message: string, now: real)
      modifies this`messagesThisFrame, this`lastMessageTime, this`console
      ensures !enableAllDebug || !IsCategoryEnabled(category) ==> unchanged(this)
      ensures |console| <= |old(console)| + 1
      ensures |console| == |old(console)| + 1 ==>
        enableAllDebug && IsCategoryEnabled(category) && console[|console| - 1] == Entry(LogType.Log, category, message)
      ensures enableAllDebug && IsCategoryEnabled(category) ==> Sunk(category, LogType.Log, message, now)
    {
      if !enableAllDebug {
        return;
      }
      if !IsCategoryEnabled(category) {
        return;
      }
      LogInternal(category, LogType.Log, message, now);
    }

    /** `LogWarning`: the same guards as `Log`. */
    method LogWarning(category: DebugCategory, message: string, now: real)
      modifies this`messagesThisFrame, this`lastMessageTime, this`console
      ensures !enableAllDebug || !IsCategoryEnabled(category) ==> unchanged(this)
      ensures |console| <= |old(console)| + 1
      ensures |console| == |old(console)| + 1 ==>
        enableAllDebug && IsCategoryEnabled(category) && console[|console| - 1] == Entry(Warning, category, message)
      ensures enableAllDebug && IsCategoryEnabled(category) ==> Sunk(category, Warning, message, now)
    {
      if !enableAllDebug {
        return;
      }
      if !IsCategoryEnabled(category) {
        return;
      }
      LogInternal(category, Warning, message, now);
    }

    /** `LogError`: ignores the master switch and the category switches, so
      * an error under the cap and outside the throttle window is written
      * whatever the settings. */
    method LogError(category: DebugCategory, message: string, now: real)
      modifies this`messagesThisFrame, this`lastMessageTime, this`console
      ensures var key := MessageKey(category, message);
        old(messagesThisFrame) < maxMessagesPerFrame && key !in old(lastMessageTime) ==>
          console == old(console) + [Entry(Error, category, message)]
      ensures Sunk(category, Error, message, now)
    {
      LogInternal(category, Error, message, now);
    }

    /** The text `LogPerformance` writes, from the operation and the
      * elapsed time already formatted with two decimals. */
    static function PerfMessage(operation: string, formattedMs: string): (m: string)
      ensures |m| == |operation| + |formattedMs| + 11
      ensures m[..7] == "[PERF] " && m[|m| - 2..] == "ms"
    {
      "[PERF] " + operation + ": " + formattedMs + "ms"
    }

    /** `LogPerformance`: only the Performance switch guards it (not the
      * master switch), and the message goes through the sink as a plain
      * entry of that category. */
    method LogPerformance(operation: string, formattedMs: string, now: real)
      modifies this`messagesThisFrame, this`lastMessageTime, this`console
      ensures !IsCategoryEnabled(Performance) ==> unchanged(this)
      ensures IsCategoryEnabled(Performance) ==> Sunk(Performance, LogType.Log, PerfMessage(operation, formattedMs), now)
      ensures |console| == |old(console)| + 1 ==>
        IsCategoryEnabled(Performance) && console[|console| - 1] == Entry(LogType.Log, Performance, PerfMessage(operation, formattedMs))
    {
      if !IsCategoryEnabled(Performance) {
        return;
      }
      LogInternal(Performance, LogType.Log, PerfMessage(operation, formattedMs), now);
    }

    /** `LogOnce` as written: the key is stamped with `now` before the sink
      * is called, so the sink finds it zero seconds old and, whenever the
      * throttle window is positive, drops the message. */
    method LogOnce(category: DebugCategory, message: string, now: real)
      modifies this`messagesThisFrame, this`lastMessageTime, this`console
      ensures messageThrottleTime > 0.0 ==> console == old(console)
      ensures enableAllDebug && IsCategoryEnabled(category) && MessageKey(category, message) !in old(lastMessageTime) ==>
        lastMessageTime == old(lastMessageTime)[MessageKey(category, message) := now]
    {
      if !enableAllDebug {
        return;
      }
      if !IsCategoryEnabled(category) {
        return;
      }
      var key := MessageKey(category, message);
      if key in lastMessageTime {
        return;
      }
      lastMessageTime := lastMessageTime[key := now];
      LogInternal(category, LogType.Log, message, now);
    }

    /** `LogOnce` as evidently intended: a key never seen before is handed
      * to the sink, which stamps it, so the message is written once; every
      * later call with the same key writes nothing. */
    method LogOnceCorrected(category: DebugCategory, message: string, now: real)
      modifies this`messagesThisFrame, this`lastMessageTime, this`console
      ensures var key := MessageKey(category, message);
        enableAllDebug && IsCategoryEnabled(category) && key !in old(lastMessageTime) &&
        old(messagesThisFrame) < maxMessagesPerFrame ==>
          console == old(console) + [Entry(LogType.Log, category, message)] && key in lastMessageTime
      ensures MessageKey(category, message) in old(lastMessageTime) ==> unchanged(this)
    {
      if !enableAllDebug {
        return;
      }
      if !IsCategoryEnabled(category) {
        return;
      }
      var key := MessageKey(category, message);
      if key in lastMessageTime {
        return;
      }
      LogInternal(category, LogType.Log, message, now);
    }

    /** `LateUpdate`: a new frame starts with no messages counted. */
    method LateUpdate()
      modifies this`messagesThisFrame
      ensures messagesThisFrame == 0
    {
      messagesThisFrame := 0;
    }

    /** Forgets every throttle key and the frame count. */
    method ClearConsole()
      modifies this`lastMessageTime, this`messagesThisFrame
      ensures lastMessageTime == map[] && messagesThisFrame == 0
    {
      lastMessageTime := map[];
      messagesThisFrame := 0;
    }

    method EnableAllCategories()
      modifies debugSettings
      ensures forall c :: IsCategoryEnabled(c)
      ensures EnabledCategoryCount() == 12
    {
      debugSettings.EnableAll();
      CountAllOrNone(debugSettings, AllCategories);
    }

    method DisableAllCategories()
      modifies debugSettings
      ensures forall c :: !IsCategoryEnabled(c)
      ensures EnabledCategoryCount() == 0
    {
      debugSettings.DisableAll();
      CountAllOrNone(debugSettings, AllCategories);
    }

    /** The number of categories switched on. */
    function EnabledCategoryCount(): (n: nat)
      reads this, debugSettings
      ensures n <= 12
    {
      debugSettings.CountEnabled(AllCategories)
    }

    /** Counts the enabled categories one by one. */
    method GetEnabledCategoryCount() returns (count: int)
      ensures count == EnabledCategoryCount()
    {
      count := 0;
      var i := 0;
      while i < |AllCategories|
        invariant 0 <= i <= |AllCategories|
        invariant count == debugSettings.CountEnabled(AllCategories[..i])
      {
        assert AllCategories[..i + 1][..i] == AllCategories[..i];
        if IsCategoryEnabled(AllCategories[i]) {
          count := count + 1;
        }
        i := i + 1;
      }
      assert AllCategories[..i] == AllCategories;
    }

    /** `OnValidate`: the cap is clamped to 1..100 and the window to 0..5 s. */
    method OnValidate()
      modifies this`maxMessagesPerFrame, this`messageThrottleTime
      ensures 1 <= maxMessagesPerFrame <= 100 && 0.0 <= messageThrottleTime <= 5.0
      ensures 1 <= old(maxMessagesPerFrame) <= 100 ==> maxMessagesPerFrame == old(maxMessagesPerFrame)
      ensures 0.0 <= old(messageThrottleTime) <= 5.0 ==> messageThrottleTime == old(messageThrottleTime)
      ensures maxMessagesPerFrame == ClampInt(old(maxMessagesPerFrame), 1, 100)
      ensures messageThrottleTime == Clamp(old(messageThrottleTime), 0.0, 5.0)
    {
      maxMessagesPerFrame := ClampInt(maxMessagesPerFrame, 1, 100);
      messageThrottleTime := Clamp(messageThrottleTime, 0.0, 5.0);
    }
  }
}
