/**
 * The bot's session state (main_bot.py, `bot_state`) and the handlers that
 * change it: `start` and `stop` toggle the running flag, `demo_mode` and
 * `real_mode` set the mode, and the hourly `market_analysis_job` opens a
 * position when the bot runs, the decision is directional and no position is
 * open yet. Nothing ever closes a position, credits the balance or records a
 * closed trade. `status`, `balance` and `positions` only read the state.
 */
module BotSession {
  import opened Optional
  import opened PyFloat
  import opened Text
  import opened MarketAnalysis

  const InitialDemoBalance: real := 10000.0
  /** Declared beside the other settings; no handler reads it. */
  const RiskPerTradePercent: real := 1.5
  const RewardRiskRatio: real := 2.0

  /** The trading mode. */
  datatype Mode = Demo | Reale

  /** The mode as stored and shown: "DEMO" or "REALE". */
  function ModeText(m: Mode): string
  {
    match m
    case Demo => "DEMO"
    case Reale => "REALE"
  }

  datatype Direction = Long | Short

  /** One entry of `open_positions`. */
  datatype Position = Position(direction: Direction, entryPrice: Float, stopLoss: Float, takeProfit: Float)

  /**
   * `risk_management.calculate_sl_tp(price, direction, atr, rr)`, which
   * returns the stop loss and the take profit. Its source is not part of
   * this model, so the job receives it as an argument and nothing is assumed
   * about what it computes.
   */
  type RiskLevels = (Float, Direction, Float, real) -> (Float, Float)

  /** The contents of `bot_state`. */
  datatype Session = Session(
    running: bool,
    mode: Mode,
    balance: real,
    openPositions: seq<Position>,
    closedTrades: seq<Position>)

  /** The messages the job sends to the chat. */
  datatype Message =
    | AnalysisError(detail: string)
    | AlreadyOpen
    | NewSignal(position: Position, technical: string, fundamental: string)
    | HoldNotice(technical: string)

  /** The new session after one run of the job, and the message it sent. */
  datatype JobResult = JobResult(next: Session, sent: Option<Message>)

  /** What `status` shows; the mode appears as its display string. */
  datatype StatusView = StatusView(running: bool, mode: string, balance: real, position: Option<Position>)

  /** The commands and job runs that change the session. */
  datatype Event =
    | StartCmd
    | StopCmd
    | DemoCmd
    | RealCmd
    | JobRun(outcome: Outcome, levels: RiskLevels)

  /** The state at process start. */
  function InitialSession(): Session
  {
    Session(false, Demo, InitialDemoBalance, [], [])
  }

  /** The job receives what `analyze_market` can return (see `Analyze`). */
  predicate JobInputOk(outcome: Outcome)
  {
    outcome.Decided? ==> WellFormed(outcome.decision)
  }

  predicate EventOk(e: Event)
  {
    e.JobRun? ==> JobInputOk(e.outcome)
  }

  /** `"LONG" if "LONG" in decisione else "SHORT"`. */
  function DirectionOf(v: Verdict): Direction
  {
    if ContainsSubstring(VerdictText(v), "LONG") then Long else Short
  }

  /** The position shown by `status` and `positions`: the first open one. */
  function FirstOpen(s: Session): Option<Position>
  {
    if |s.openPositions| > 0 then Some(s.openPositions[0]) else None
  }

  /** One run of `market_analysis_job` on session `s`. */
  function MarketAnalysisStep(s: Session, outcome: Outcome, levels: RiskLevels): JobResult
    requires JobInputOk(outcome)
  {
    if !s.running || outcome.Raised? then JobResult(s, None)
    else
      var d := outcome.decision;
      if d.verdict == Error then JobResult(s, Some(AnalysisError(d.technical)))
      else if |s.openPositions| > 0 then JobResult(s, Some(AlreadyOpen))
      else if d.verdict == OpenLong || d.verdict == OpenShort then
        var direction := DirectionOf(d.verdict);
        var (sl, tp) := levels(d.price.value, direction, d.atr.value, RewardRiskRatio);
        var position := Position(direction, d.price.value, sl, tp);
        JobResult(s.(openPositions := s.openPositions + [position]), Some(NewSignal(position, d.technical, d.fundamental)))
      else JobResult(s, Some(HoldNotice(d.technical)))
  }

  /** The session after one event. */
  function Step(s: Session, e: Event): Session
    requires EventOk(e)
  {
    match e
    case StartCmd => s.(running := true)
    case StopCmd => s.(running := false)
    case DemoCmd => s.(mode := Demo)
    case RealCmd => s.(mode := Reale)
    case JobRun(outcome, levels) => MarketAnalysisStep(s, outcome, levels).next
  }

  /** The session after a sequence of events, oldest first. */
  function Run(s: Session, events: seq<Event>): Session
    requires forall i :: 0 <= i < |events| ==> EventOk(events[i])
    decreases |events|
  {
    if events == [] then s else Run(Step(s, events[0]), events[1..])
  }

  /** The verdict strings send "APRI LONG" long and "APRI SHORT" short. */
  lemma DirectionMatchesVerdict()
    ensures DirectionOf(OpenLong) == Long && DirectionOf(OpenShort) == Short
  {
    var long := VerdictText(OpenLong);
    assert long[5] == 'L' && long[6] == 'O' && long[7] == 'N' && long[8] == 'G';
    assert long[5..9] == "LONG";
    assert OccursAt(long, "LONG", 5);
    ContainsSubstringIff(long, "LONG");
    assert 'L' !in VerdictText(OpenShort);
    AbsentWithoutFirstChar(VerdictText(OpenShort), "LONG");
  }

  /**
   * The job changes the session only by opening a position, and it does so
   * exactly when the bot runs, the decision is directional and no position is
   * open; the new position is the only one, points the way of the verdict and
   * enters at the decision's price.
   */
  lemma JobOpensOnlyIntoEmptySlot(s: Session, outcome: Outcome, levels: RiskLevels)
    requires JobInputOk(outcome)
    ensures
      var r := MarketAnalysisStep(s, outcome, levels);
      var opens := s.running && outcome.Decided? && |s.openPositions| == 0
        && (outcome.decision.verdict == OpenLong || outcome.decision.verdict == OpenShort);
      (r.next != s <==> opens)
      && (opens ==>
            |r.next.openPositions| == 1
            && r.next.openPositions[0].direction == (if outcome.decision.verdict == OpenLong then Long else Short)
            && Some(r.next.openPositions[0].entryPrice) == outcome.decision.price)
  {
    DirectionMatchesVerdict();
  }

  /**
   * Whatever the decision, the job never writes the running flag, the mode,
   * the balance or the closed trades, and never drops an open position.
   */
  lemma JobKeepsAccounts(s: Session, outcome: Outcome, levels: RiskLevels)
    requires JobInputOk(outcome)
    ensures
      var n := MarketAnalysisStep(s, outcome, levels).next;
      n.running == s.running && n.mode == s.mode && n.balance == s.balance
      && n.closedTrades == s.closedTrades && s.openPositions <= n.openPositions
  {
  }

  /** The job's messages: none when stopped or when the analysis raised. */
  lemma JobMessages(s: Session, outcome: Outcome, levels: RiskLevels)
    requires JobInputOk(outcome)
    ensures MarketAnalysisStep(s, outcome, levels).sent.None? <==> !s.running || outcome.Raised?
    ensures s.running && outcome.Decided? && outcome.decision.verdict == Error ==>
      MarketAnalysisStep(s, outcome, levels).sent == Some(AnalysisError(outcome.decision.technical))
    ensures s.running && outcome.Decided? && outcome.decision.verdict != Error && |s.openPositions| > 0 ==>
      MarketAnalysisStep(s, outcome, levels).sent == Some(AlreadyOpen)
    ensures s.running && outcome.Decided? && outcome.decision.verdict == Hold && |s.openPositions| == 0 ==>
      MarketAnalysisStep(s, outcome, levels).sent == Some(HoldNotice(outcome.decision.technical))
    ensures (s.running && outcome.Decided? && |s.openPositions| == 0
             && (outcome.decision.verdict == OpenLong || outcome.decision.verdict == OpenShort)) ==>
      MarketAnalysisStep(s, outcome, levels).sent
        == Some(NewSignal(MarketAnalysisStep(s, outcome, levels).next.openPositions[0],
                          outcome.decision.technical, outcome.decision.fundamental))
  {
  }

  /** At most one position is open after any sequence of commands and job runs. */
  lemma {:induction false} RunKeepsSingleSlot(s: Session, events: seq<Event>)
    requires forall i :: 0 <= i < |events| ==> EventOk(events[i])
    requires |s.openPositions| <= 1
    ensures |Run(s, events).openPositions| <= 1
    decreases |events|
  {
    if events != [] {
      var next := Step(s, events[0]);
      if events[0].JobRun? {
        JobOpensOnlyIntoEmptySlot(s, events[0].outcome, events[0].levels);
      }
      assert |next.openPositions| <= 1;
      RunKeepsSingleSlot(next, events[1..]);
    }
  }

  /**
   * No sequence of commands and job runs closes a position, changes the
   * balance or records a closed trade.
   */
  lemma {:induction false} RunNeverCloses(s: Session, events: seq<Event>)
    requires forall i :: 0 <= i < |events| ==> EventOk(events[i])
    ensures s.openPositions <= Run(s, events).openPositions
    ensures Run(s, events).balance == s.balance
    ensures Run(s, events).closedTrades == s.closedTrades
    decreases |events|
  {
    if events != [] {
      var next := Step(s, events[0]);
      if events[0].JobRun? {
        JobKeepsAccounts(s, events[0].outcome, events[0].levels);
      }
      RunNeverCloses(next, events[1..]);
    }
  }

  /** From process start, the session never holds two positions. */
  lemma SingleSlotFromStart(events: seq<Event>)
    requires forall i :: 0 <= i < |events| ==> EventOk(events[i])
    ensures |Run(InitialSession(), events).openPositions| <= 1
    ensures Run(InitialSession(), events).balance == InitialDemoBalance
  {
    RunKeepsSingleSlot(InitialSession(), events);
    RunNeverCloses(InitialSession(), events);
  }

  /**
   * With the guarded analysis, a series too short to index reaches a running
   * job as the error tuple: the chat is told the data is unavailable and the
   * session is left as it was.
   */
  lemma ShortSeriesReportsError(s: Session, data: Option<Snapshot>, sentiment: string, levels: RiskLevels)
    requires s.running
    requires data.Some? && (|data.value.d1| < 2 || |data.value.h4| < 2)
    ensures JobInputOk(Decided(AnalyzeChecked(data, sentiment)))
    ensures MarketAnalysisStep(s, Decided(AnalyzeChecked(data, sentiment)), levels)
      == JobResult(s, Some(AnalysisError("Dati non disponibili.")))
  {
  }

  /** `bot_state`, the session object every handler updates in place. */
  class BotState {
    var isRunning: bool
    var mode: Mode
    var balance: real
    var openPositions: seq<Position>
    var closedTrades: seq<Position>

    function State(): Session
      reads this
    {
      Session(isRunning, mode, balance, openPositions, closedTrades)
    }

    /** The single-slot invariant. */
    ghost predicate Valid()
      reads this
    {
      |openPositions| <= 1
    }

    constructor ()
      ensures Valid() && State() == InitialSession()
    {
      isRunning := false;
      mode := Demo;
      balance := InitialDemoBalance;
      openPositions := [];
      closedTrades := [];
    }

    /** `start`: the job scheduling and the reply are not modelled. */
    method Start()
      requires Valid()
      modifies this
      ensures Valid() && isRunning
      ensures State() == Step(old(State()), StartCmd)
    {
      isRunning := true;
    }

    /** `stop`: the job removal and the reply are not modelled. */
    method Stop()
      requires Valid()
      modifies this
      ensures Valid() && !isRunning
      ensures State() == Step(old(State()), StopCmd)
    {
      isRunning := false;
    }

    /** `demo_mode`. */
    method DemoMode()
      requires Valid()
      modifies this
      ensures Valid() && mode == Demo
      ensures State() == Step(old(State()), DemoCmd)
    {
      mode := Demo;
    }

    /** `real_mode`. */
    method RealMode()
      requires Valid()
      modifies this
      ensures Valid() && mode == Reale
      ensures State() == Step(old(State()), RealCmd)
    {
      mode := Reale;
    }

    /** `status`: the fields it displays. */
    method Status() returns (v: StatusView)
      ensures v.running == isRunning && v.mode == ModeText(mode) && v.balance == balance
      ensures v.position.Some? <==> |openPositions| > 0
      ensures v.position.Some? ==> v.position.value == openPositions[0]
    {
      v := StatusView(isRunning, ModeText(mode), balance, FirstOpen(State()));
    }

    /** `balance`. */
    method Balance() returns (b: real)
      ensures b == balance
    {
      b := balance;
    }

    /** `positions`: the open position, if there is one. */
    method Positions() returns (p: Option<Position>)
      ensures p.Some? <==> |openPositions| > 0
      ensures p.Some? ==> p.value == openPositions[0]
    {
      if |openPositions| == 0 {
        return None;
      }
      p := Some(openPositions[0]);
    }

    /**
     * `market_analysis_job`, with the result of `analyze_market` and the
     * risk-level calculator as inputs; returns the message it sends.
     */
    method MarketAnalysisJob(outcome: Outcome, levels: RiskLevels) returns (sent: Option<Message>)
      requires Valid() && JobInputOk(outcome)
      modifies this
      ensures Valid()
      ensures State() == MarketAnalysisStep(old(State()), outcome, levels).next
      ensures sent == MarketAnalysisStep(old(State()), outcome, levels).sent
    {
      if !isRunning || outcome.Raised? {
        return None;
      }
      var d := outcome.decision;
      if d.verdict == Error {
        return Some(AnalysisError(d.technical));
      }
      if |openPositions| > 0 {
        return Some(AlreadyOpen);
      }
      if d.verdict == OpenLong || d.verdict == OpenShort {
        var direction := DirectionOf(d.verdict);
        var (sl, tp) := levels(d.price.value, direction, d.atr.value, RewardRiskRatio);
        var position := Position(direction, d.price.value, sl, tp);
        openPositions := openPositions + [position];
        return Some(NewSignal(position, d.technical, d.fundamental));
      }
      return Some(HoldNotice(d.technical));
    }
  }

  /**
   * A long signal opens the one slot and a later short signal is only
   * acknowledged: the session keeps the single long position.
   */
  method SecondSignalIsIgnored(long: Decision, short: Decision, levels: RiskLevels)
    returns (positions: seq<Position>, second: Option<Message>)
    requires WellFormed(long) && long.verdict == OpenLong
    requires WellFormed(short) && short.verdict == OpenShort
    ensures |positions| == 1 && positions[0].direction == Long
    ensures Some(positions[0].entryPrice) == long.price
    ensures second == Some(AlreadyOpen)
  {
    var bot := new BotState();
    bot.Start();
    var first := bot.MarketAnalysisJob(Decided(long), levels);
    JobOpensOnlyIntoEmptySlot(Session(true, Demo, InitialDemoBalance, [], []), Decided(long), levels);
    second := bot.MarketAnalysisJob(Decided(short), levels);
    positions := bot.openPositions;
  }
}
