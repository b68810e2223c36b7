/** The foxy-pool upstream (lib/upstream/foxy-pool-multi.js): it installs
    each genuinely new round the gateway announces, computes the
    submit-probability target deadline, looks up who won the previous
    round and counts the rounds its own accounts won, and forwards nonce
    submissions with options merged by a fixed precedence.

    The functions below say what one call does to the session's state;
    the class `FoxyPoolMulti` holds that state in fields and its methods
    are proved to change it exactly so. */
module FoxyPool {
  import opened JsValues
  import opened UpstreamUtil

  /** A round as the `MiningInfo` class holds it. */
  datatype MiningInfo = MiningInfo(
    height: nat,
    baseTarget: nat,
    generationSignature: string,
    targetDeadline: Option<int>,
    miningHalted: bool,
    coin: string,
    netDiff: real)

  /** A round notification from the gateway; `netDiff` is the network
      difficulty the `MiningInfo` class derives for it. */
  datatype Notification = Notification(
    height: nat,
    baseTarget: nat,
    generationSignature: string,
    targetDeadline: Option<int>,
    miningHalted: bool,
    netDiff: real)

  /** The upstream's configuration entries that this code reads. */
  datatype UpstreamConfig = UpstreamConfig(
    coin: string,
    sendTargetDL: Option<int>,
    minerName: Option<string>,
    payoutAddress: Option<string>,
    accountKey: Option<string>,
    accountName: Option<string>,
    distributionRatio: Option<string>,
    walletUrl: Option<string>,
    customEndpoint: Option<string>)

  /** What the base upstream class supplies at the moment a round arrives. */
  datatype BaseView = BaseView(
    useSubmitProbability: bool,
    targetDLFactor: real,
    lastCapacity: real,
    miningCanBeHalted: bool)

  /** The session state a round notification reads and writes. */
  datatype RoundState = RoundState(
    miningInfo: Option<MiningInfo>,
    dynamicTargetDeadline: Option<int>,
    wonBlocks: nat,
    myAccountIds: set<string>,
    newRounds: seq<MiningInfo>)

  /** The lookup of the previous round's winner: its height, the answer, how
      many single attempts were made (0 when no wallet is configured) and how
      many five-second waits came between them. */
  datatype WinnerLookup = WinnerLookup(height: nat, winner: Option<string>, attempts: nat, retryWaits: nat)

  /** What a notification led to: the handler threw (no current round to
      read the previous height from), it was the current round again, or
      the round was installed and the previous winner possibly looked up,
      after `graceWaits` seven-second waits for the wallet to catch up. */
  datatype Outcome =
    | Threw
    | SameRound
    | Accepted(round: MiningInfo, lookup: Option<WinnerLookup>, graceWaits: nat)

  datatype Transition = Transition(state: RoundState, outcome: Outcome)

  /** The options that go to the gateway with a submission. */
  datatype SubmitOptions = SubmitOptions(
    minerName: string,
    userAgent: string,
    capacity: Option<real>,
    payoutAddress: Option<string>,
    accountName: Option<string>,
    distributionRatio: Option<string>)

  /** The per-call options a miner passes to `submitNonce`. */
  datatype MinerOptions = MinerOptions(minerName: Option<string>, accountName: Option<string>, capacity: Option<real>)

  datatype Submission = Submission(accountId: string, height: nat, nonce: string, deadline: nat)

  /** One submission forwarded to the gateway. */
  datatype GatewaySubmission = GatewaySubmission(coin: string, submission: Submission, options: SubmitOptions)

  datatype SubmitResult<R> = SubmitResult(error: Option<string>, result: R)

  /** The round built from a notification, with a configured `sendTargetDL`
      in place of the upstream's target deadline. */
  function RoundOf(config: UpstreamConfig, para: Notification): (round: MiningInfo)
    ensures round.height == para.height && round.baseTarget == para.baseTarget
    ensures round.generationSignature == para.generationSignature && round.netDiff == para.netDiff
    ensures round.coin == config.coin && round.miningHalted == para.miningHalted
    ensures IsTruthyInt(config.sendTargetDL) ==> round.targetDeadline == config.sendTargetDL
    ensures !IsTruthyInt(config.sendTargetDL) ==> round.targetDeadline == para.targetDeadline
  {
    var targetDeadline := if IsTruthyInt(config.sendTargetDL) then config.sendTargetDL else para.targetDeadline;
    MiningInfo(para.height, para.baseTarget, para.generationSignature, targetDeadline, para.miningHalted, config.coin, para.netDiff)
  }

  /** Two rounds are the same round when height and base target agree. */
  predicate IsSameRound(a: MiningInfo, b: MiningInfo) {
    a.height == b.height && a.baseTarget == b.baseTarget
  }

  /** `Math.round(factor * netDiff / (capacity / 1024))`. */
  function SubmitProbabilityDeadline(factor: real, netDiff: real, capacity: real): int
    requires capacity != 0.0
  {
    RoundHalfUp(factor * netDiff / (capacity / 1024.0))
  }

  /** The dynamic target deadline for a new round: computed only in
      submit-probability mode with a non-zero capacity, and null otherwise. */
  function DynamicTargetDeadline(base: BaseView, netDiff: real): (dl: Option<int>)
    ensures dl.Some? <==> base.useSubmitProbability && base.lastCapacity != 0.0
    ensures dl.Some? ==> dl.value == SubmitProbabilityDeadline(base.targetDLFactor, netDiff, base.lastCapacity)
  {
    if base.useSubmitProbability && base.lastCapacity != 0.0 then
      Some(SubmitProbabilityDeadline(base.targetDLFactor, netDiff, base.lastCapacity))
    else None
  }

  /** More capacity never raises the dynamic target deadline, for a fixed
      non-negative factor and difficulty. */
  lemma DynamicDeadlineNonIncreasing(factor: real, netDiff: real, small: real, large: real)
    requires factor >= 0.0 && netDiff >= 0.0 && 0.0 < small <= large
    ensures SubmitProbabilityDeadline(factor, netDiff, large) <= SubmitProbabilityDeadline(factor, netDiff, small)
  {
    var x := factor * netDiff;
    assert x >= 0.0;
    var a := x / (large / 1024.0);
    var b := x / (small / 1024.0);
    assert a * (large / 1024.0) == x && b * (small / 1024.0) == x;
    assert a >= 0.0;
    assert a * (small / 1024.0) <= a * (large / 1024.0);
    assert (a - b) * (small / 1024.0) <= 0.0;
    assert a <= b;
    RoundHalfUpMonotone(a, b);
  }

  /** `getBlockWinnerAccountId(height)`: no wallet URL configured means no
      lookup at all; otherwise the retry loop against the wallet. */
  function LookupWinner(config: UpstreamConfig, isBitcoinLike: bool, height: nat, node: nat -> NodeAnswers): (l: WinnerLookup)
    ensures l.height == height && l.attempts <= MaxAttempts
    // one wait before each retry, none when no attempt is made
    ensures l.retryWaits == (if l.attempts == 0 then 0 else l.attempts - 1) && l.retryWaits <= MaxRetries
    ensures !IsTruthyString(config.walletUrl) ==> l.winner.None? && l.attempts == 0
    ensures IsTruthyString(config.walletUrl) ==>
              Resolution(l.winner, l.attempts) == Resolve(WinnerQuery(config.walletUrl.value, isBitcoinLike, height, config.customEndpoint), node)
  {
    if !IsTruthyString(config.walletUrl) then WinnerLookup(height, None, 0, 0)
    else
      var r := Resolve(WinnerQuery(config.walletUrl.value, isBitcoinLike, height, config.customEndpoint), node);
      WinnerLookup(height, r.winner, r.attempts, r.attempts - 1)
  }

  /** Whether a lookup found that one of the session's own accounts won. */
  predicate IsWon(lookup: Option<WinnerLookup>, myAccountIds: set<string>) {
    lookup.Some? && lookup.value.winner.Some? && lookup.value.winner.value in myAccountIds
  }

  /** `onNewMiningInfo`: the state after the call and what it led to, as a
      function of the state before it. */
  function RoundTransition(config: UpstreamConfig, isBitcoinLike: bool, s: RoundState, para: Notification,
                          base: BaseView, node: nat -> NodeAnswers): (t: Transition)
    // the current round again: nothing changes, nothing is emitted or looked up
    ensures (s.miningInfo.Some? && s.miningInfo.value.height == para.height && s.miningInfo.value.baseTarget == para.baseTarget)
              ==> t.state == s && t.outcome == SameRound
    // no current round to read the previous height from: the handler throws, nothing changes
    ensures s.miningInfo.None? ==> t.state == s && t.outcome == Threw
    ensures t.outcome.Accepted? <==>
              s.miningInfo.Some? && !(s.miningInfo.value.height == para.height && s.miningInfo.value.baseTarget == para.baseTarget)
    ensures !t.outcome.Accepted? ==> t.state == s
    ensures t.state.myAccountIds == s.myAccountIds
    ensures t.outcome.Accepted? ==>
              var round := t.outcome.round;
              // the new round is installed and emitted exactly once
              t.state.miningInfo == Some(round) && t.state.newRounds == s.newRounds + [round] &&
              round.height == para.height && round.baseTarget == para.baseTarget &&
              round.generationSignature == para.generationSignature && round.netDiff == para.netDiff &&
              round.coin == config.coin &&
              // a configured sendTargetDL replaces the upstream's target deadline
              round.targetDeadline == (if IsTruthyInt(config.sendTargetDL) then config.sendTargetDL else para.targetDeadline) &&
              // the halt override wins over the upstream's flag
              (base.miningCanBeHalted ==> round.miningHalted) &&
              (!base.miningCanBeHalted ==> round.miningHalted == para.miningHalted) &&
              t.state.dynamicTargetDeadline == DynamicTargetDeadline(base, para.netDiff)
    ensures t.outcome.Accepted? ==>
              var previous := s.miningInfo.value.height;
              var lookup := t.outcome.lookup;
              // the previous round's winner is looked up iff its height is truthy
              (lookup.Some? <==> previous != 0) &&
              // one seven-second wait for the wallet, exactly before a lookup
              t.outcome.graceWaits == (if lookup.Some? then 1 else 0) &&
              (lookup.Some? ==> lookup.value == LookupWinner(config, isBitcoinLike, previous, node)) &&
              // one more won block iff that winner is one of our accounts, otherwise none
              (t.state.wonBlocks == s.wonBlocks + 1 <==>
                 previous != 0 && lookup.value.winner.Some? && lookup.value.winner.value in s.myAccountIds) &&
              (t.state.wonBlocks == s.wonBlocks || t.state.wonBlocks == s.wonBlocks + 1)
  {
    var candidate := RoundOf(config, para);
    if s.miningInfo.Some? && IsSameRound(s.miningInfo.value, candidate) then Transition(s, SameRound)
    else if s.miningInfo.None? then Transition(s, Threw)
    else
      var lastBlockHeight := s.miningInfo.value.height;
      var round := if base.miningCanBeHalted then candidate.(miningHalted := true) else candidate;
      var lookup := if lastBlockHeight != 0 then Some(LookupWinner(config, isBitcoinLike, lastBlockHeight, node)) else None;
      var state := s.(
        miningInfo := Some(round),
        dynamicTargetDeadline := DynamicTargetDeadline(base, round.netDiff),
        wonBlocks := if IsWon(lookup, s.myAccountIds) then s.wonBlocks + 1 else s.wonBlocks,
        newRounds := s.newRounds + [round]);
      Transition(state, Accepted(round, lookup, if lookup.Some? then 1 else 0))
  }

  /** Announcing a round twice in a row emits it once and counts at most one
      win: the repeat finds the same round and changes nothing. */
  lemma RepeatedNotificationIgnored(config: UpstreamConfig, isBitcoinLike: bool, s: RoundState, para: Notification,
                                    base: BaseView, base': BaseView, node: nat -> NodeAnswers, node': nat -> NodeAnswers)
    requires RoundTransition(config, isBitcoinLike, s, para, base, node).outcome.Accepted?
    ensures var first := RoundTransition(config, isBitcoinLike, s, para, base, node);
            var second := RoundTransition(config, isBitcoinLike, first.state, para, base', node');
            second.state == first.state && second.outcome == SameRound &&
            |second.state.newRounds| == |s.newRounds| + 1
  {
  }

  /** The options forwarded with a submission: configuration first, then the
      miner's options, then the defaults. */
  function OptionsToSubmit(config: UpstreamConfig, options: MinerOptions, minerSoftware: string,
                           defaultMinerName: string, userAgent: string): (o: SubmitOptions)
    ensures IsTruthyString(config.minerName) ==> o.minerName == config.minerName.value
    ensures !IsTruthyString(config.minerName) && IsTruthyString(options.minerName) ==> o.minerName == options.minerName.value
    ensures !IsTruthyString(config.minerName) && !IsTruthyString(options.minerName) ==> o.minerName == defaultMinerName
    ensures o.payoutAddress == if IsTruthyString(config.payoutAddress) then config.payoutAddress else config.accountKey
    ensures IsTruthyString(config.accountName) ==> o.accountName == config.accountName
    ensures !IsTruthyString(config.accountName) && IsTruthyString(options.accountName) ==> o.accountName == options.accountName
    ensures !IsTruthyString(config.accountName) && !IsTruthyString(options.accountName) ==> o.accountName.None?
    ensures o.distributionRatio == if IsTruthyString(config.distributionRatio) then config.distributionRatio else None
    ensures o.capacity == options.capacity
    ensures o.userAgent == userAgent + " | " + minerSoftware
  {
    var minerName := OrElse(OrElse(config.minerName, options.minerName), Some(defaultMinerName));
    SubmitOptions(
      minerName.value,
      userAgent + " | " + minerSoftware,
      options.capacity,
      OrElse(config.payoutAddress, config.accountKey),
      OrElse(OrElse(config.accountName, options.accountName), None),
      OrElse(config.distributionRatio, None))
  }

  class FoxyPoolMulti {
    const config: UpstreamConfig
    /** The configured coin, upper-cased. */
    const coin: string
    const isBitcoinLike: bool

    var miningInfo: Option<MiningInfo>
    var dynamicTargetDeadline: Option<int>
    var wonBlocks: nat
    var myAccountIds: set<string>
    /** The rounds emitted as `new-round`, oldest first. */
    var newRounds: seq<MiningInfo>
    /** The submissions forwarded to the gateway, oldest first. */
    var forwarded: seq<GatewaySubmission>

    function State(): RoundState
      reads this
    {
      RoundState(miningInfo, dynamicTargetDeadline, wonBlocks, myAccountIds, newRounds)
    }

    /** `init` without the gateway. `miningInfo`, `dynamicTargetDeadline` and
        `wonBlocks` belong to the base class, which is not part of this model:
        their initial values are whatever it left there. */
    constructor (config: UpstreamConfig, initialMiningInfo: Option<MiningInfo>,
                 initialDynamicTargetDeadline: Option<int>, initialWonBlocks: nat)
      ensures this.config == config && coin == Upper(config.coin)
      ensures isBitcoinLike <==> Upper(config.coin) != "BURST"
      ensures State() == RoundState(initialMiningInfo, initialDynamicTargetDeadline, initialWonBlocks, {}, [])
      ensures forwarded == []
    {
      this.config := config;
      coin := Upper(config.coin);
      isBitcoinLike := Upper(config.coin) != "BURST";
      miningInfo := initialMiningInfo;
      dynamicTargetDeadline := initialDynamicTargetDeadline;
      wonBlocks := initialWonBlocks;
      myAccountIds := {};
      newRounds := [];
      forwarded := [];
    }

    /** `getBlockWinnerAccountId(height)`. */
    method GetBlockWinnerAccountId(height: nat, node: nat -> NodeAnswers) returns (winner: Option<string>, attempts: nat, waits: nat)
      ensures WinnerLookup(height, winner, attempts, waits) == LookupWinner(config, isBitcoinLike, height, node)
    {
      if !IsTruthyString(config.walletUrl) {
        return None, 0, 0;
      }
      winner, attempts, waits := UpstreamUtil.GetBlockWinnerAccountId(
        WinnerQuery(config.walletUrl.value, isBitcoinLike, height, config.customEndpoint), node);
    }

    /** The writes of an accepted round: the round, its dynamic target
        deadline, the `new-round` emit and the won-block count. */
    method InstallRound(round: MiningInfo, deadline: Option<int>, roundWon: bool)
      modifies this
      ensures State() == old(State()).(miningInfo := Some(round), dynamicTargetDeadline := deadline,
                                       wonBlocks := if roundWon then old(wonBlocks) + 1 else old(wonBlocks),
                                       newRounds := old(newRounds) + [round])
      ensures forwarded == old(forwarded)
    {
      miningInfo := Some(round);
      dynamicTargetDeadline := deadline;
      newRounds := newRounds + [round];
      if roundWon {
        wonBlocks := wonBlocks + 1;
      }
    }

    /** `onNewMiningInfo(para)`; the winner lookup, detached in the source,
        completes within the call here. */
    method OnNewMiningInfo(para: Notification, base: BaseView, node: nat -> NodeAnswers) returns (outcome: Outcome)
      modifies this
      ensures State() == RoundTransition(config, isBitcoinLike, old(State()), para, base, node).state
      ensures outcome == RoundTransition(config, isBitcoinLike, old(State()), para, base, node).outcome
      ensures forwarded == old(forwarded)
    {
      ghost var before := State();
      ghost var t := RoundTransition(config, isBitcoinLike, before, para, base, node);
      var p := para;
      if IsTruthyInt(config.sendTargetDL) {
        p := p.(targetDeadline := config.sendTargetDL);
      }
      var round := MiningInfo(p.height, p.baseTarget, p.generationSignature, p.targetDeadline, p.miningHalted, config.coin, p.netDiff);
      assert round == RoundOf(config, para);
      if miningInfo.Some? && miningInfo.value.height == round.height && miningInfo.value.baseTarget == round.baseTarget {
        assert t == Transition(before, SameRound);
        return SameRound;
      }
      if miningInfo.None? {
        assert t == Transition(before, Threw);
        return Threw;
      }
      var lastBlockHeight := miningInfo.value.height;
      var deadline: Option<int> := None;
      if base.useSubmitProbability && base.lastCapacity != 0.0 {
        deadline := Some(SubmitProbabilityDeadline(base.targetDLFactor, round.netDiff, base.lastCapacity));
      }
      if base.miningCanBeHalted {
        round := round.(miningHalted := true);
      }
      assert deadline == DynamicTargetDeadline(base, round.netDiff);
      // the lookup runs detached in the source and only ever touches `wonBlocks`
      var lookup: Option<WinnerLookup> := None;
      var roundWon := false;
      var graceWaits := 0;
      if lastBlockHeight != 0 {
        graceWaits := 1;  // the seven-second wait for the wallet to catch up
        var lastBlockWinner, attempts, waits := GetBlockWinnerAccountId(lastBlockHeight, node);
        lookup := Some(WinnerLookup(lastBlockHeight, lastBlockWinner, attempts, waits));
        roundWon := lastBlockWinner.Some? && lastBlockWinner.value in myAccountIds;
      }
      assert roundWon == IsWon(lookup, before.myAccountIds);
      assert t.outcome == Accepted(round, lookup, graceWaits);
      InstallRound(round, deadline, roundWon);
      outcome := Accepted(round, lookup, graceWaits);
    }

    /** `submitNonce`: records the account, forwards the submission with the
        merged options and reports no error; `gatewayResult` is the
        gateway's answer. */
    method SubmitNonce<R>(submission: Submission, minerSoftware: string, options: MinerOptions,
                          defaultMinerName: string, userAgent: string, gatewayResult: R)
      returns (result: SubmitResult<R>)
      modifies this
      ensures myAccountIds == old(myAccountIds) + {submission.accountId}
      ensures forwarded == old(forwarded) +
                [GatewaySubmission(coin, submission, OptionsToSubmit(config, options, minerSoftware, defaultMinerName, userAgent))]
      ensures result == SubmitResult(None, gatewayResult)
      ensures miningInfo == old(miningInfo) && dynamicTargetDeadline == old(dynamicTargetDeadline)
      ensures wonBlocks == old(wonBlocks) && newRounds == old(newRounds)
    {
      myAccountIds := myAccountIds + {submission.accountId};
      var optionsToSubmit := OptionsToSubmit(config, options, minerSoftware, defaultMinerName, userAgent);
      forwarded := forwarded + [GatewaySubmission(coin, submission, optionsToSubmit)];
      result := SubmitResult(None, gatewayResult);
    }
  }
}
