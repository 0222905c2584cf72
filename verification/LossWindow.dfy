/**
 When to fall back from UDP to TCP: the verdicts of the last 32 receiver reports, kept as the bits of one
 32-bit word, and the smoothed round-trip time.
 */
module LossWindow {
  const UDP_LOSS_FRAC_UNSTABLE := 25
  const UNSTABLE_COUNT_THRESHOLD := 20
  const WORD := 0x1_0000_0000

  // ---------------------------------------------------------------------------------- the word

  function ShiftIn(word: nat, unstable: bool): nat {
    word * 2 % WORD + if unstable then 1 else 0
  }

  function OnesCount(word: nat): nat {
    if word == 0 then 0 else word % 2 + OnesCount(word / 2)
  }

  function Pow2(n: nat): (p: nat)
    ensures 1 <= p
  {
    if n == 0 then 1 else 2 * Pow2(n - 1)
  }

  /** Verdicts as the bits of a number, the newest one last and lowest. */
  function Value(verdicts: seq<bool>): nat {
    if verdicts == [] then 0
    else 2 * Value(verdicts[..|verdicts| - 1]) + if verdicts[|verdicts| - 1] then 1 else 0
  }

  function Unstable(verdicts: seq<bool>): nat {
    if verdicts == [] then 0
    else Unstable(verdicts[..|verdicts| - 1]) + if verdicts[|verdicts| - 1] then 1 else 0
  }

  function Last32(verdicts: seq<bool>): seq<bool> {
    if |verdicts| <= 32 then verdicts else verdicts[|verdicts| - 32..]
  }

  lemma {:induction false} ValueBound(verdicts: seq<bool>)
    ensures Value(verdicts) < Pow2(|verdicts|)
  {
    if verdicts != [] {
      ValueBound(verdicts[..|verdicts| - 1]);
    }
  }

  lemma {:induction false} ValueOfFirst(first: bool, rest: seq<bool>)
    ensures Value([first] + rest) == (if first then Pow2(|rest|) else 0) + Value(rest)
  {
    var whole := [first] + rest;
    if rest == [] {
      assert whole[..0] == [];
    } else {
      ValueOfFirst(first, rest[..|rest| - 1]);
      assert whole[..|whole| - 1] == [first] + rest[..|rest| - 1];
    }
  }

  lemma Pow2Is(n: nat)
    requires n == 31 || n == 32
    ensures Pow2(31) == 0x8000_0000 && Pow2(32) == WORD
  {
    assert Pow2(8) == 256;
    assert Pow2(16) == 0x1_0000;
    assert Pow2(24) == 0x100_0000;
    assert Pow2(31) == 0x8000_0000;
  }

  lemma {:induction false} ShorterPow2(a: nat, b: nat)
    requires a <= b
    ensures Pow2(a) <= Pow2(b)
    decreases b
  {
    if a < b {
      ShorterPow2(a, b - 1);
    }
  }

  lemma ShiftOut(top: bool, rest: nat)
    requires rest < 0x8000_0000
    ensures ((if top then 0x8000_0000 else 0) + rest) * 2 % WORD == rest * 2
  {
  }

  lemma ValueExtends(verdicts: seq<bool>, v: bool)
    ensures Value(verdicts + [v]) == 2 * Value(verdicts) + if v then 1 else 0
  {
    assert (verdicts + [v])[..|verdicts|] == verdicts;
  }

  lemma ShiftsShort(window: seq<bool>, unstable: bool)
    requires |window| < 32
    ensures ShiftIn(Value(window), unstable) == Value(window + [unstable])
  {
    Pow2Is(31);
    ValueBound(window);
    ShorterPow2(|window|, 31);
    ShiftOut(false, Value(window));
    ValueExtends(window, unstable);
  }

  lemma ShiftsFull(oldest: bool, rest: seq<bool>, unstable: bool)
    requires |rest| == 31
    ensures ShiftIn(Value([oldest] + rest), unstable) == Value(rest + [unstable])
  {
    Pow2Is(31);
    ValueBound(rest);
    ValueOfFirst(oldest, rest);
    ShiftOut(oldest, Value(rest));
    ValueExtends(rest, unstable);
  }

  /** Shifting one more verdict in drops the oldest of 32. */
  lemma ShiftsWindow(verdicts: seq<bool>, unstable: bool)
    ensures ShiftIn(Value(Last32(verdicts)), unstable) == Value(Last32(verdicts + [unstable]))
  {
    var window := Last32(verdicts);
    if |window| < 32 {
      ShiftsShort(window, unstable);
    } else {
      ShiftsFull(window[0], window[1..], unstable);
      assert window == [window[0]] + window[1..];
      assert Last32(verdicts + [unstable]) == window[1..] + [unstable];
    }
  }

  /** The number of bits set is the number of unstable verdicts. */
  lemma {:induction false} OnesAreUnstable(verdicts: seq<bool>)
    ensures OnesCount(Value(verdicts)) == Unstable(verdicts)
  {
    if verdicts != [] {
      OnesAreUnstable(verdicts[..|verdicts| - 1]);
    }
  }

  lemma {:induction false} UnstableSuffix(verdicts: seq<bool>, n: nat)
    requires n <= |verdicts|
    ensures Unstable(verdicts[n..]) <= Unstable(verdicts)
    decreases |verdicts|
  {
    if n < |verdicts| {
      var front := verdicts[..|verdicts| - 1];
      UnstableSuffix(front, n);
      assert verdicts[n..][..|verdicts| - 1 - n] == front[n..];
    }
  }

  // ---------------------------------------------------------------------------------- round-trip time

  /** Division by two as Go does it: towards zero. */
  function Half(d: int): int { if d >= 0 then d / 2 else -(-d / 2) }

  function Smoothed(old': nat, sample: nat): nat {
    if old' == 0 then sample else old' + Half(sample - old')
  }

  function Distance(a: nat, b: nat): nat { if a < b then b - a else a - b }

  /** A smoothed value lies between the old one and the sample, half as far from the sample; it gets stuck one away. */
  lemma SmoothedBetween(old': nat, sample: nat)
    requires old' > 0
    ensures var r := Smoothed(old', sample);
      && (old' <= r <= sample || sample <= r <= old')
      && Distance(r, sample) == (Distance(old', sample) + 1) / 2
      && r > 0
  {
  }

  function SmoothedBy(rtt: nat, sample: nat, times: nat): nat
    decreases times
  {
    if times == 0 then rtt else SmoothedBy(Smoothed(rtt, sample), sample, times - 1)
  }

  /** A round-trip time that stays the same is reached to within one in logarithmically many samples. */
  lemma {:induction false} SmoothedConverges(rtt: nat, sample: nat, times: nat)
    requires rtt > 0 && Distance(rtt, sample) <= Pow2(times)
    ensures Distance(SmoothedBy(rtt, sample, times), sample) <= 1
    decreases times
  {
    if times > 0 {
      SmoothedBetween(rtt, sample);
      SmoothedConverges(Smoothed(rtt, sample), sample, times - 1);
    }
  }

  /** But it is reached exactly if it was there from the start. */
  lemma {:induction false} SmoothedReachesExactly(rtt: nat, sample: nat, times: nat)
    requires rtt > 0
    ensures SmoothedBy(rtt, sample, times) == sample <==> rtt == sample
    decreases times
  {
    if times > 0 {
      SmoothedBetween(rtt, sample);
      SmoothedReachesExactly(Smoothed(rtt, sample), sample, times - 1);
    }
  }

  /** A time of 11 stays at 11 however often 10 is measured. */
  lemma {:induction false} SmoothedStuck(times: nat)
    ensures SmoothedBy(11, 10, times) == 11
    decreases times
  {
    if times > 0 {
      assert Smoothed(11, 10) == 11;
      SmoothedStuck(times - 1);
    }
  }

  // ---------------------------------------------------------------------------------- steps

  datatype Config = Config(tcpFallbackRTTThreshold: int, allowUDPUnstableFallback: bool)

  datatype Report = Report(unstable: bool, triggered: bool)

  /** The word and the times, and history: the verdicts since the last reset, and all reports. */
  datatype State = State(word: nat, signalingRTT: nat, udpRTT: nat, verdicts: seq<bool>, reports: seq<Report>)

  const INIT := State(0, 0, 0, [], [])

  datatype Event =
    | MediaLoss(loss: nat, recentSignal: bool)
    | Reset
    | SignalingRTT(signal: nat)
    | MediaRTT(sample: nat)

  predicate Enabled(c: Config) { c.tcpFallbackRTTThreshold != 0 && c.allowUDPUnstableFallback }

  predicate IsUnstable(loss: nat) { loss >= 255 * UDP_LOSS_FRAC_UNSTABLE / 100 }

  /** A signal connection that is alive and not much slower than UDP. */
  predicate CanFallBack(c: Config, s: State, recentSignal: bool) {
    && s.udpRTT > 0
    && s.signalingRTT < s.udpRTT * 13 / 10
    && s.signalingRTT < c.tcpFallbackRTTThreshold
    && recentSignal
  }

  predicate Triggers(c: Config, s: State, loss: nat, recentSignal: bool) {
    && Enabled(c) && IsUnstable(loss)
    && OnesCount(ShiftIn(s.word, true)) >= UNSTABLE_COUNT_THRESHOLD
    && CanFallBack(c, s, recentSignal)
  }

  function Step(c: Config, s: State, e: Event): State {
    match e
    case MediaLoss(loss, recentSignal) =>
      if !Enabled(c) then s
      else
        var unstable, triggered := IsUnstable(loss), Triggers(c, s, loss, recentSignal);
        s.(word := if triggered then 0 else ShiftIn(s.word, unstable),
           verdicts := if triggered then [] else s.verdicts + [unstable],
           reports := s.reports + [Report(unstable, triggered)])
    case Reset => s.(word := 0, verdicts := [])
    case SignalingRTT(signal) => s.(signalingRTT := signal)
    case MediaRTT(sample) => s.(udpRTT := Smoothed(s.udpRTT, sample))
  }

  function Run(c: Config, s: State, events: seq<Event>): State
    decreases |events|
  {
    if events == [] then s else Run(c, Step(c, s, events[0]), events[1..])
  }

  // ---------------------------------------------------------------------------------- in place

  class TransportManager {
    const config: Config
    var udpLossUnstableCount: nat
    var signalingRTT: nat
    var udpRTT: nat
    ghost var verdicts: seq<bool>
    ghost var reports: seq<Report>

    constructor (config: Config)
      ensures Fields() == INIT && this.config == config
    {
      this.config := config;
      udpLossUnstableCount, signalingRTT, udpRTT := 0, 0, 0;
      verdicts, reports := [], [];
    }

    ghost function Fields(): State
      reads this
    {
      State(udpLossUnstableCount, signalingRTT, udpRTT, verdicts, reports)
    }

    method OnMediaLossUpdate(loss: nat, recentSignal: bool) returns (failed: bool)
      requires loss <= 255
      modifies this
      ensures Fields() == Step(config, old(Fields()), MediaLoss(loss, recentSignal))
      ensures failed == Triggers(config, old(Fields()), loss, recentSignal)
    {
      failed := false;
      if config.tcpFallbackRTTThreshold == 0 || !config.allowUDPUnstableFallback {
        return;
      }
      udpLossUnstableCount := udpLossUnstableCount * 2 % WORD;
      verdicts := verdicts + [IsUnstable(loss)];
      if loss >= 255 * UDP_LOSS_FRAC_UNSTABLE / 100 {
        udpLossUnstableCount := udpLossUnstableCount + 1;
        if OnesCount(udpLossUnstableCount) >= UNSTABLE_COUNT_THRESHOLD {
          if udpRTT > 0 && signalingRTT < udpRTT * 13 / 10
             && signalingRTT < config.tcpFallbackRTTThreshold && recentSignal {
            udpLossUnstableCount := 0;
            verdicts := [];
            failed := true;
          }
        }
      }
      reports := reports + [Report(IsUnstable(loss), failed)];
    }

    method ResetTransportConfigure()
      modifies this
      ensures Fields() == Step(config, old(Fields()), Reset)
      ensures udpLossUnstableCount == 0 && signalingRTT == old(signalingRTT) && udpRTT == old(udpRTT)
    {
      udpLossUnstableCount := 0;
      verdicts := [];
    }

    method UpdateSignalingRTT(rtt: nat)
      modifies this
      ensures Fields() == Step(config, old(Fields()), SignalingRTT(rtt))
      ensures signalingRTT == rtt && udpRTT == old(udpRTT) && udpLossUnstableCount == old(udpLossUnstableCount)
    {
      signalingRTT := rtt;
    }

    method UpdateMediaRTT(rtt: nat)
      modifies this
      ensures Fields() == Step(config, old(Fields()), MediaRTT(rtt))
      ensures old(udpRTT) == 0 ==> udpRTT == rtt
      ensures old(udpRTT) > 0 ==> (old(udpRTT) <= udpRTT <= rtt || rtt <= udpRTT <= old(udpRTT))
                                  && Distance(udpRTT, rtt) == (Distance(old(udpRTT), rtt) + 1) / 2
      ensures signalingRTT == old(signalingRTT) && udpLossUnstableCount == old(udpLossUnstableCount)
    {
      if udpRTT == 0 {
        udpRTT := rtt;
      } else {
        udpRTT := udpRTT + Half(rtt - udpRTT);
      }
    }
  }

  // ---------------------------------------------------------------------------------- invariant

  /** Unstable reports since the last trigger. */
  function SinceTrigger(reports: seq<Report>): nat {
    if reports == [] || reports[|reports| - 1].triggered then 0
    else SinceTrigger(reports[..|reports| - 1]) + if reports[|reports| - 1].unstable then 1 else 0
  }

  /** Every trigger comes with, and after enough, unstable reports since the one before. */
  ghost predicate Spaced(reports: seq<Report>) {
    forall j :: 0 <= j < |reports| && reports[j].triggered ==>
      reports[j].unstable && SinceTrigger(reports[..j]) + 1 >= UNSTABLE_COUNT_THRESHOLD
  }

  ghost predicate Inv(s: State) {
    && s.word == Value(Last32(s.verdicts))
    && Unstable(s.verdicts) <= SinceTrigger(s.reports)
    && Spaced(s.reports)
  }

  /**
   A trigger happens exactly when at least 20 of the last 32 verdicts, this one included, are unstable, and
   one can fall back.
   */
  lemma TriggersExactly(c: Config, s: State, loss: nat, recentSignal: bool)
    requires Inv(s)
    ensures Triggers(c, s, loss, recentSignal) <==>
      && Enabled(c) && IsUnstable(loss) && CanFallBack(c, s, recentSignal)
      && Unstable(Last32(s.verdicts + [true])) >= UNSTABLE_COUNT_THRESHOLD
  {
    ShiftsWindow(s.verdicts, true);
    OnesAreUnstable(Last32(s.verdicts + [true]));
  }

  /**
   What a report does, in its own terms: a loss of 63 of 255 or more is unstable, and with 20 such among the
   last 32 falls back when UDP was measured, the signal connection is recent, and its time is below the
   threshold and 1.3 times that of UDP.
   */
  lemma ReportExactly(c: Config, events: seq<Event>, loss: nat, recentSignal: bool)
    ensures
      var s := Run(c, INIT, events);
      var t := Step(c, s, MediaLoss(loss, recentSignal));
      var unstable := loss >= 63;
      var falls := && unstable && Unstable(Last32(s.verdicts + [true])) >= 20
                   && s.udpRTT > 0 && recentSignal
                   && s.signalingRTT < c.tcpFallbackRTTThreshold && 10 * (s.signalingRTT + 1) <= 13 * s.udpRTT;
      && t.signalingRTT == s.signalingRTT && t.udpRTT == s.udpRTT
      && (if c.tcpFallbackRTTThreshold == 0 || !c.allowUDPUnstableFallback then t == s
          else && t.reports == s.reports + [Report(unstable, falls)]
               && t.verdicts == if falls then [] else s.verdicts + [unstable])
  {
    RunKeepsInv(c, INIT, events);
    var s := Run(c, INIT, events);
    TriggersExactly(c, s, loss, recentSignal);
  }

  lemma UnstableExtends(verdicts: seq<bool>, v: bool)
    ensures Unstable(verdicts + [v]) == Unstable(verdicts) + if v then 1 else 0
  {
    assert (verdicts + [v])[..|verdicts|] == verdicts;
  }

  lemma SpacedExtends(reports: seq<Report>, r: Report)
    requires Spaced(reports)
    requires r.triggered ==> r.unstable && SinceTrigger(reports) + 1 >= UNSTABLE_COUNT_THRESHOLD
    ensures Spaced(reports + [r])
    ensures SinceTrigger(reports + [r])
         == if r.triggered then 0 else SinceTrigger(reports) + if r.unstable then 1 else 0
  {
    assert (reports + [r])[..|reports|] == reports;
    forall j | 0 <= j < |reports| + 1 && (reports + [r])[j].triggered
      ensures (reports + [r])[j].unstable && SinceTrigger((reports + [r])[..j]) + 1 >= UNSTABLE_COUNT_THRESHOLD
    {
      if j < |reports| {
        assert (reports + [r])[..j] == reports[..j];
      }
    }
  }

  lemma StepKeepsInv(c: Config, s: State, e: Event)
    requires Inv(s)
    ensures Inv(Step(c, s, e))
  {
    if e.MediaLoss? && Enabled(c) {
      var unstable, triggered := IsUnstable(e.loss), Triggers(c, s, e.loss, e.recentSignal);
      ShiftsWindow(s.verdicts, unstable);
      UnstableExtends(s.verdicts, unstable);
      if triggered {
        TriggersExactly(c, s, e.loss, e.recentSignal);
        var longer := s.verdicts + [true];
        UnstableSuffix(longer, |longer| - |Last32(longer)|);
      }
      SpacedExtends(s.reports, Report(unstable, triggered));
    }
  }

  lemma {:induction false} RunKeepsInv(c: Config, s: State, events: seq<Event>)
    requires Inv(s)
    ensures Inv(Run(c, s, events))
    decreases |events|
  {
    if events != [] {
      StepKeepsInv(c, s, events[0]);
      RunKeepsInv(c, Step(c, s, events[0]), events[1..]);
    }
  }

  /** The word is always the last 32 verdicts since the last reset, and its bits count the unstable ones. */
  lemma WordIsWindow(c: Config, events: seq<Event>)
    ensures
      var s := Run(c, INIT, events);
      && s.word == Value(Last32(s.verdicts)) < WORD
      && OnesCount(s.word) == Unstable(Last32(s.verdicts))
  {
    RunKeepsInv(c, INIT, events);
    var window := Last32(Run(c, INIT, events).verdicts);
    OnesAreUnstable(window);
    ValueBound(window);
    ShorterPow2(|window|, 32);
    Pow2Is(32);
  }

  function UnstableReports(reports: seq<Report>): nat {
    if reports == [] then 0
    else UnstableReports(reports[..|reports| - 1]) + if reports[|reports| - 1].unstable then 1 else 0
  }

  lemma {:induction false} SinceIsAfter(reports: seq<Report>, i: nat, j: nat)
    requires i < j <= |reports| && reports[i].triggered
    ensures SinceTrigger(reports[..j]) <= UnstableReports(reports[i + 1..j])
    decreases j
  {
    assert reports[..j][..j - 1] == reports[..j - 1];
    if i + 1 < j {
      SinceIsAfter(reports, i, j - 1);
      assert reports[i + 1..j][..j - 2 - i] == reports[i + 1..j - 1];
    }
  }

  lemma UnstableReportsExtend(reports: seq<Report>, r: Report)
    ensures UnstableReports(reports + [r]) == UnstableReports(reports) + if r.unstable then 1 else 0
  {
    assert (reports + [r])[..|reports|] == reports;
  }

  lemma SpacedMeans(reports: seq<Report>, i: nat, j: nat)
    requires Spaced(reports) && i < j < |reports| && reports[i].triggered && reports[j].triggered
    ensures UnstableReports(reports[i + 1..j + 1]) >= UNSTABLE_COUNT_THRESHOLD
  {
    SinceIsAfter(reports, i, j);
    UnstableReportsExtend(reports[i + 1..j], reports[j]);
    assert reports[i + 1..j + 1] == reports[i + 1..j] + [reports[j]];
  }

  /** Between any two fall-backs there are at least 20 unstable reports, the one that triggers the second included. */
  lemma FallbacksAreSpaced(c: Config, events: seq<Event>, i: nat, j: nat)
    requires i < j < |Run(c, INIT, events).reports|
    requires Run(c, INIT, events).reports[i].triggered && Run(c, INIT, events).reports[j].triggered
    ensures UnstableReports(Run(c, INIT, events).reports[i + 1..j + 1]) >= UNSTABLE_COUNT_THRESHOLD
  {
    RunKeepsInv(c, INIT, events);
    SpacedMeans(Run(c, INIT, events).reports, i, j);
  }

  lemma {:induction false} MeasuredStays(c: Config, s: State, events: seq<Event>)
    requires s.udpRTT > 0
    ensures Run(c, s, events).udpRTT > 0
    decreases |events|
  {
    if events != [] {
      if events[0].MediaRTT? {
        SmoothedBetween(s.udpRTT, events[0].sample);
      }
      MeasuredStays(c, Step(c, s, events[0]), events[1..]);
    }
  }
}
