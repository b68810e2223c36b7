/** The statistics part of the dashboard's table (lib/services/cli-dashboard.js,
    `buildTable`): the upstream snapshots of every proxy are merged by name,
    each proxy's miner is attached to the merged upstream it is scanning for,
    and each merged upstream's progress is classified for display.

    The reduce in the source mutates the first snapshot of each name; here
    every snapshot enters the merge as a record with `counter` 1 and no
    miners, and the merged records are values in a sequence. */
module DashboardStats {
  import opened JsValues

  /** A miner's `stats` as a proxy reports them. */
  datatype MinerStats = MinerStats(
    proxyIndex: nat,
    color: string,
    currentBlockScanning: nat,
    progress: real,
    scanSpeed: string,
    remainingTime: string)

  /** An upstream's `stats` snapshot: `height` is its `miningInfo.height`. */
  datatype UpstreamStats = UpstreamStats(
    name: string,
    height: nat,
    bestDL: Option<nat>,
    roundProgress: real,
    lastCapacity: real)

  /** A proxy: its upstreams (absent while it is starting) and its miner. */
  datatype Proxy = Proxy(upstreams: Option<seq<UpstreamStats>>, miner: MinerStats)

  /** A merged upstream record. */
  datatype Merged = Merged(
    name: string,
    height: nat,
    bestDL: Option<nat>,
    roundProgress: real,
    lastCapacity: real,
    counter: nat,
    miners: seq<MinerStats>)

  /** How a snapshot enters the merge when its name is new. */
  function FromSnapshot(s: UpstreamStats): Merged {
    Merged(s.name, s.height, s.bestDL, s.roundProgress, s.lastCapacity, 1, [])
  }

  // ---------------------------------------------------------------------
  // Reference definitions of the merge

  /** The snapshots named `name`, in order. */
  function Group(s: seq<UpstreamStats>, name: string): seq<UpstreamStats> {
    if s == [] then []
    else Group(s[..|s| - 1], name) + (if s[|s| - 1].name == name then [s[|s| - 1]] else [])
  }

  /** The smaller of two best deadlines, null ones ignored. */
  function MinBest(a: Option<nat>, b: Option<nat>): Option<nat> {
    match (a, b)
    case (None, _) => b
    case (_, None) => a
    case (Some(x), Some(y)) => Some(if x <= y then x else y)
  }

  /** The best deadline of a group of snapshots. */
  function BestOf(g: seq<UpstreamStats>): Option<nat> {
    if g == [] then None else MinBest(BestOf(g[..|g| - 1]), g[|g| - 1].bestDL)
  }

  function SumProgress(g: seq<UpstreamStats>): real {
    if g == [] then 0.0 else SumProgress(g[..|g| - 1]) + g[|g| - 1].roundProgress
  }

  function SumCapacity(g: seq<UpstreamStats>): real {
    if g == [] then 0.0 else SumCapacity(g[..|g| - 1]) + g[|g| - 1].lastCapacity
  }

  /** The distinct names of the snapshots, in order of first appearance. */
  function FirstAppearances(s: seq<UpstreamStats>): seq<string> {
    if s == [] then []
    else
      var names := FirstAppearances(s[..|s| - 1]);
      if s[|s| - 1].name in names then names else names + [s[|s| - 1].name]
  }

  /** The merged record of `name` before the division: identity and height
      from its first snapshot, minimum best deadline, summed progress and
      capacity, and one count per snapshot. */
  function Accumulated(s: seq<UpstreamStats>, name: string): Merged {
    var g := Group(s, name);
    if g == [] then Merged(name, 0, None, 0.0, 0.0, 0, [])
    else Merged(g[0].name, g[0].height, BestOf(g), SumProgress(g), SumCapacity(g), |g|, [])
  }

  /** `roundProgress /= counter`. */
  function Divided(m: Merged): Merged {
    if m.counter == 0 then m else m.(roundProgress := m.roundProgress / m.counter as real)
  }

  /** The merged record of `name`: its progress is the mean over the snapshots of that name. */
  function MergedRecord(s: seq<UpstreamStats>, name: string): Merged {
    Divided(Accumulated(s, name))
  }

  function MergedAll(s: seq<UpstreamStats>): seq<Merged> {
    var names := FirstAppearances(s);
    seq(|names|, j requires 0 <= j < |names| => MergedRecord(s, names[j]))
  }

  // ---------------------------------------------------------------------
  // What the reference definitions mean

  /** The merged best deadline is the least non-null one, and null iff all are. */
  lemma {:induction false} BestOfIsMinimum(g: seq<UpstreamStats>)
    ensures BestOf(g).None? <==> forall k :: 0 <= k < |g| ==> g[k].bestDL.None?
    ensures BestOf(g).Some? ==> exists k :: 0 <= k < |g| && g[k].bestDL == BestOf(g)
    ensures BestOf(g).Some? ==> forall k :: 0 <= k < |g| && g[k].bestDL.Some? ==> BestOf(g).value <= g[k].bestDL.value
  {
    if g != [] {
      var prefix := g[..|g| - 1];
      BestOfIsMinimum(prefix);
      assert forall k :: 0 <= k < |prefix| ==> prefix[k] == g[k];
      if BestOf(g).Some? && BestOf(g) != g[|g| - 1].bestDL {
        var k :| 0 <= k < |prefix| && prefix[k].bestDL == BestOf(prefix);
        assert g[k].bestDL == BestOf(g);
      }
    }
  }

  lemma {:induction false} GroupMembers(s: seq<UpstreamStats>, name: string)
    ensures forall k :: 0 <= k < |Group(s, name)| ==> Group(s, name)[k].name == name
    ensures Group(s, name) == [] <==> forall i :: 0 <= i < |s| ==> s[i].name != name
  {
    if s != [] {
      var prefix := s[..|s| - 1];
      GroupMembers(prefix, name);
      assert forall i :: 0 <= i < |prefix| ==> prefix[i] == s[i];
    }
  }

  /** The merge names exactly the names of the snapshots. */
  lemma {:induction false} FirstAppearancesNames(s: seq<UpstreamStats>, name: string)
    ensures name in FirstAppearances(s) <==> exists i :: 0 <= i < |s| && s[i].name == name
  {
    if s != [] {
      var prefix := s[..|s| - 1];
      FirstAppearancesNames(prefix, name);
      if exists i :: 0 <= i < |s| && s[i].name == name {
        var i :| 0 <= i < |s| && s[i].name == name;
        if i < |prefix| { assert prefix[i].name == name; }
      }
    }
  }

  /** Each name has one merged record. */
  lemma {:induction false} FirstAppearancesDistinct(s: seq<UpstreamStats>)
    ensures forall a, b :: 0 <= a < b < |FirstAppearances(s)| ==> FirstAppearances(s)[a] != FirstAppearances(s)[b]
  {
    if s != [] {
      FirstAppearancesDistinct(s[..|s| - 1]);
    }
  }

  /** The records come in order of first appearance: wherever a later
      record's name occurs, an earlier record's name occurred before it. */
  lemma {:induction false} FirstAppearancesOrdered(s: seq<UpstreamStats>, a: nat, b: nat, i: nat)
    requires a < b < |FirstAppearances(s)|
    requires i < |s| && s[i].name == FirstAppearances(s)[b]
    ensures exists i' :: 0 <= i' < i && s[i'].name == FirstAppearances(s)[a]
  {
    var prefix := s[..|s| - 1];
    var names := FirstAppearances(prefix);
    assert forall k :: 0 <= k < |prefix| ==> prefix[k] == s[k];
    if i < |prefix| {
      if b < |names| {
        FirstAppearancesOrdered(prefix, a, b, i);
      } else {
        // the name at b is new in the last snapshot, so it does not occur in prefix
        FirstAppearancesNames(prefix, FirstAppearances(s)[b]);
        assert false;
      }
    } else {
      assert a < |names|;
      FirstAppearancesNames(prefix, names[a]);
      var i' :| 0 <= i' < |prefix| && prefix[i'].name == names[a];
      assert s[i'].name == FirstAppearances(s)[a];
    }
  }

  /** A merged record is the aggregate of its group: first snapshot's
      height, least best deadline, summed capacity, mean progress, and a
      counter of one per snapshot of that name. */
  lemma MergedRecordAggregatesGroup(s: seq<UpstreamStats>, name: string)
    requires name in FirstAppearances(s)
    ensures var g := Group(s, name);
            var r := MergedRecord(s, name);
            |g| >= 1 && r.counter == |g| && r.name == name && r.height == g[0].height &&
            r.bestDL == BestOf(g) && r.lastCapacity == SumCapacity(g) &&
            r.roundProgress == SumProgress(g) / |g| as real && r.miners == []
  {
    NonEmptyGroup(s, name);
  }

  /** The concrete case: two snapshots of "A" make one record with the
      smaller best deadline and the summed capacity. */
  lemma MergeTwoSnapshotsOfOneName(x: UpstreamStats, y: UpstreamStats)
    requires x.name == "A" && y.name == "A" && x.bestDL == Some(100) && y.bestDL == Some(50)
    ensures MergedAll([x, y]) == [Merged("A", x.height, Some(50), (x.roundProgress + y.roundProgress) / 2.0,
                                         x.lastCapacity + y.lastCapacity, 2, [])]
  {
    assert [x, y][..1] == [x];
    assert [x][..0] == [];
    assert Group([x], "A") == [x];
    assert Group([x, y], "A") == [x, y];
    assert FirstAppearances([x]) == ["A"];
    assert FirstAppearances([x, y]) == ["A"];
    AggregatesSnoc([x], y);
    AggregatesSnoc([], x);
    assert [] + [x] == [x];
    assert Accumulated([x, y], "A") == Merged("A", x.height, Some(50), x.roundProgress + y.roundProgress,
                                              x.lastCapacity + y.lastCapacity, 2, []);
  }

  // ---------------------------------------------------------------------
  // The reduce and the division, as the source runs them

  /** `acc.find(data => data.name === name)`. */
  function FindByName(acc: seq<Merged>, name: string): (r: Option<nat>)
    ensures r.Some? ==> r.value < |acc| && acc[r.value].name == name && forall k :: 0 <= k < r.value ==> acc[k].name != name
    ensures r.None? ==> forall k :: 0 <= k < |acc| ==> acc[k].name != name
  {
    if acc == [] then None
    else if acc[0].name == name then Some(0)
    else
      var rest := FindByName(acc[1..], name);
      if rest.Some? then Some(rest.value + 1) else None
  }

  /** Lines 92-97: the accumulated record absorbs one more snapshot. The
      best deadline is the smaller of the two, a missing one losing to any. */
  function Absorb(upstream: Merged, curr: UpstreamStats): (r: Merged)
    ensures r.bestDL == MinBest(upstream.bestDL, curr.bestDL)
    ensures r.counter == upstream.counter + 1
    ensures r.roundProgress == upstream.roundProgress + curr.roundProgress
    ensures r.lastCapacity == upstream.lastCapacity + curr.lastCapacity
    ensures r.name == upstream.name && r.height == upstream.height && r.miners == upstream.miners
  {
    var bestDL := if upstream.bestDL.None? || (curr.bestDL.Some? && upstream.bestDL.value > curr.bestDL.value)
                  then curr.bestDL else upstream.bestDL;
    upstream.(bestDL := bestDL,
              roundProgress := upstream.roundProgress + curr.roundProgress,
              lastCapacity := upstream.lastCapacity + curr.lastCapacity,
              counter := upstream.counter + 1)
  }

  lemma GroupSnoc(s: seq<UpstreamStats>, x: UpstreamStats, name: string)
    ensures Group(s + [x], name) == Group(s, name) + (if x.name == name then [x] else [])
  {
    assert (s + [x])[..|s|] == s;
  }

  lemma AggregatesSnoc(g: seq<UpstreamStats>, x: UpstreamStats)
    ensures BestOf(g + [x]) == MinBest(BestOf(g), x.bestDL)
    ensures SumProgress(g + [x]) == SumProgress(g) + x.roundProgress
    ensures SumCapacity(g + [x]) == SumCapacity(g) + x.lastCapacity
  {
    assert (g + [x])[..|g|] == g;
  }

  lemma NonEmptyGroup(s: seq<UpstreamStats>, name: string)
    requires name in FirstAppearances(s)
    ensures Group(s, name) != [] && Group(s, name)[0].name == name
  {
    FirstAppearancesNames(s, name);
    GroupMembers(s, name);
  }

  lemma AbsorbExtendsGroup(s: seq<UpstreamStats>, x: UpstreamStats)
    requires x.name in FirstAppearances(s)
    ensures Accumulated(s + [x], x.name) == Absorb(Accumulated(s, x.name), x)
  {
    var g := Group(s, x.name);
    NonEmptyGroup(s, x.name);
    GroupSnoc(s, x, x.name);
    AggregatesSnoc(g, x);
    assert (g + [x])[0] == g[0];
  }

  lemma NewNameStartsGroup(s: seq<UpstreamStats>, x: UpstreamStats)
    requires x.name !in FirstAppearances(s)
    ensures Accumulated(s + [x], x.name) == FromSnapshot(x)
  {
    FirstAppearancesNames(s, x.name);
    GroupMembers(s, x.name);
    GroupSnoc(s, x, x.name);
    assert Group(s, x.name) == [];
    assert Group(s + [x], x.name) == [x];
    assert [x][..0] == [];
    assert BestOf([x]) == x.bestDL;
    assert SumProgress([x]) == x.roundProgress;
    assert SumCapacity([x]) == x.lastCapacity;
  }

  lemma OtherNameUnchanged(s: seq<UpstreamStats>, x: UpstreamStats, name: string)
    requires name != x.name
    ensures Accumulated(s + [x], name) == Accumulated(s, name)
  {
    GroupSnoc(s, x, name);
    assert Group(s + [x], name) == Group(s, name);
  }

  /** The invariant of the reduce: one accumulated record per name of the
      prefix, in order of first appearance. */
  ghost predicate AccumulatesPrefix(acc: seq<Merged>, s: seq<UpstreamStats>) {
    |acc| == |FirstAppearances(s)| &&
    forall j :: 0 <= j < |acc| ==> acc[j] == Accumulated(s, FirstAppearances(s)[j])
  }

  lemma AccumulatedName(s: seq<UpstreamStats>, name: string)
    ensures Accumulated(s, name).name == name
  {
    GroupMembers(s, name);
  }

  lemma ReduceStep(acc: seq<Merged>, s: seq<UpstreamStats>, x: UpstreamStats) returns (acc': seq<Merged>)
    requires AccumulatesPrefix(acc, s)
    ensures AccumulatesPrefix(acc', s + [x])
    ensures var found := FindByName(acc, x.name);
            acc' == if found.None? then acc + [FromSnapshot(x)] else acc[found.value := Absorb(acc[found.value], x)]
  {
    var names := FirstAppearances(s);
    assert (s + [x])[..|s|] == s;
    forall j | 0 <= j < |acc| ensures acc[j].name == names[j] {
      AccumulatedName(s, names[j]);
    }
    FirstAppearancesDistinct(s);
    var found := FindByName(acc, x.name);
    if found.None? {
      assert x.name !in names;
      acc' := acc + [FromSnapshot(x)];
      NewNameStartsGroup(s, x);
      forall j | 0 <= j < |acc| ensures acc'[j] == Accumulated(s + [x], FirstAppearances(s + [x])[j]) {
        OtherNameUnchanged(s, x, names[j]);
      }
    } else {
      var k := found.value;
      acc' := acc[k := Absorb(acc[k], x)];
      assert x.name in names;
      AbsorbExtendsGroup(s, x);
      forall j | 0 <= j < |acc| && j != k ensures acc'[j] == Accumulated(s + [x], FirstAppearances(s + [x])[j]) {
        OtherNameUnchanged(s, x, names[j]);
      }
    }
  }

  /** The reduce over all snapshots and the division by `counter` (lines 86-100). */
  method MergeUpstreams(stats: seq<UpstreamStats>) returns (upstreams: seq<Merged>)
    ensures upstreams == MergedAll(stats)
  {
    var acc: seq<Merged> := [];
    for i := 0 to |stats|
      invariant AccumulatesPrefix(acc, stats[..i])
    {
      var curr := stats[i];
      ghost var before := acc;
      assert stats[..i + 1] == stats[..i] + [curr];
      var found := FindByName(acc, curr.name);
      if found.None? {
        acc := acc + [FromSnapshot(curr)];
      } else {
        var upstream := acc[found.value];
        if upstream.bestDL.None? || (curr.bestDL.Some? && upstream.bestDL.value > curr.bestDL.value) {
          upstream := upstream.(bestDL := curr.bestDL);
        }
        upstream := upstream.(roundProgress := upstream.roundProgress + curr.roundProgress);
        upstream := upstream.(lastCapacity := upstream.lastCapacity + curr.lastCapacity);
        upstream := upstream.(counter := upstream.counter + 1);
        assert upstream == Absorb(before[found.value], curr);
        acc := acc[found.value := upstream];
      }
      ghost var expected := ReduceStep(before, stats[..i], curr);
      assert acc == expected;
    }
    assert stats[..|stats|] == stats;
    upstreams := acc;
    for k := 0 to |upstreams|
      invariant |upstreams| == |acc|
      invariant forall j :: 0 <= j < k ==> upstreams[j] == Divided(acc[j])
      invariant forall j :: k <= j < |upstreams| ==> upstreams[j] == acc[j]
    {
      NonEmptyGroup(stats, FirstAppearances(stats)[k]);
      assert upstreams[k].counter >= 1;
      upstreams := upstreams[k := upstreams[k].(roundProgress := upstreams[k].roundProgress / upstreams[k].counter as real)];
    }
  }

  // ---------------------------------------------------------------------
  // Attaching miners (lines 101-109)

  function FindScanningFrom(upstreams: seq<Merged>, m: MinerStats, i: nat): (r: Option<nat>)
    requires i <= |upstreams|
    ensures r.Some? ==> i <= r.value < |upstreams| && upstreams[r.value].height == m.currentBlockScanning && m.progress != 100.0
    ensures r.Some? ==> forall k :: i <= k < r.value ==> upstreams[k].height != m.currentBlockScanning
    ensures r.None? ==> m.progress == 100.0 || forall k :: i <= k < |upstreams| ==> upstreams[k].height != m.currentBlockScanning
    decreases |upstreams| - i
  {
    if i == |upstreams| then None
    else if upstreams[i].height == m.currentBlockScanning && m.progress != 100.0 then Some(i)
    else FindScanningFrom(upstreams, m, i + 1)
  }

  /** The upstream a miner's stats are pushed onto: the first whose round
      height is the one the miner scans, and none for a finished scan. */
  function AttachTarget(upstreams: seq<Merged>, m: MinerStats): (r: Option<nat>)
    ensures r.Some? ==> r.value < |upstreams| && upstreams[r.value].height == m.currentBlockScanning
    ensures r.Some? ==> forall k :: 0 <= k < r.value ==> upstreams[k].height != m.currentBlockScanning
    ensures r.None? <==> m.progress == 100.0 || forall k :: 0 <= k < |upstreams| ==> upstreams[k].height != m.currentBlockScanning
  {
    FindScanningFrom(upstreams, m, 0)
  }

  lemma AttachTargetByHeights(a: seq<Merged>, b: seq<Merged>, m: MinerStats)
    requires |a| == |b| && forall j :: 0 <= j < |a| ==> a[j].height == b[j].height
    ensures AttachTarget(a, m) == AttachTarget(b, m)
  {
  }

  /** The miners pushed onto upstream `j`, in proxy order. */
  function AttachedTo(upstreams: seq<Merged>, proxies: seq<Proxy>, j: nat): seq<MinerStats> {
    if proxies == [] then []
    else
      var m := proxies[|proxies| - 1].miner;
      AttachedTo(upstreams, proxies[..|proxies| - 1], j) + (if AttachTarget(upstreams, m) == Some(j) then [m] else [])
  }

  function AttachAll(upstreams: seq<Merged>, proxies: seq<Proxy>): seq<Merged> {
    seq(|upstreams|, j requires 0 <= j < |upstreams| => upstreams[j].(miners := upstreams[j].miners + AttachedTo(upstreams, proxies, j)))
  }

  /** A miner is only ever attached to its target upstream. */
  lemma {:induction false} AttachedOnlyToTarget(upstreams: seq<Merged>, proxies: seq<Proxy>, j: nat, m: MinerStats)
    requires m in AttachedTo(upstreams, proxies, j)
    ensures AttachTarget(upstreams, m) == Some(j)
    ensures m.progress != 100.0 && j < |upstreams| && upstreams[j].height == m.currentBlockScanning
  {
    var prefix := proxies[..|proxies| - 1];
    if m !in AttachedTo(upstreams, prefix, j) {
      assert m == proxies[|proxies| - 1].miner;
    } else {
      AttachedOnlyToTarget(upstreams, prefix, j, m);
    }
  }

  /** So no miner's stats are pushed onto two upstreams. */
  lemma AttachedAtMostOnce(upstreams: seq<Merged>, proxies: seq<Proxy>, j: nat, k: nat, m: MinerStats)
    requires m in AttachedTo(upstreams, proxies, j) && m in AttachedTo(upstreams, proxies, k)
    ensures j == k
  {
    AttachedOnlyToTarget(upstreams, proxies, j, m);
    AttachedOnlyToTarget(upstreams, proxies, k, m);
  }

  /** And every proxy whose miner has a target is attached there. */
  lemma {:induction false} AttachedWhereTargeted(upstreams: seq<Merged>, proxies: seq<Proxy>, p: nat)
    requires p < |proxies| && AttachTarget(upstreams, proxies[p].miner).Some?
    ensures proxies[p].miner in AttachedTo(upstreams, proxies, AttachTarget(upstreams, proxies[p].miner).value)
  {
    var prefix := proxies[..|proxies| - 1];
    if p < |prefix| {
      assert prefix[p] == proxies[p];
      AttachedWhereTargeted(upstreams, prefix, p);
    }
  }

  lemma AttachedToSnoc(upstreams: seq<Merged>, proxies: seq<Proxy>, p: nat, j: nat)
    requires p < |proxies|
    ensures AttachedTo(upstreams, proxies[..p + 1], j) ==
            AttachedTo(upstreams, proxies[..p], j) + (if AttachTarget(upstreams, proxies[p].miner) == Some(j) then [proxies[p].miner] else [])
  {
    assert proxies[..p + 1][..p] == proxies[..p];
  }

  /** The invariant of the loop: the miners of the first `p` proxies are attached. */
  ghost predicate AttachedPrefix(result: seq<Merged>, upstreams: seq<Merged>, proxies: seq<Proxy>, p: nat)
    requires p <= |proxies|
  {
    |result| == |upstreams| &&
    forall j :: 0 <= j < |result| ==>
      result[j] == upstreams[j].(miners := upstreams[j].miners + AttachedTo(upstreams, proxies[..p], j))
  }

  /** `this.proxies.forEach(...)`: each proxy's miner stats pushed onto its target. */
  method AttachMiners(upstreams: seq<Merged>, proxies: seq<Proxy>) returns (result: seq<Merged>)
    ensures result == AttachAll(upstreams, proxies)
  {
    result := upstreams;
    assert AttachedPrefix(result, upstreams, proxies, 0);
    for p := 0 to |proxies|
      invariant AttachedPrefix(result, upstreams, proxies, p)
    {
      var minerStats := proxies[p].miner;
      AttachTargetByHeights(result, upstreams, minerStats);
      var upstream := AttachTarget(result, minerStats);
      if upstream.Some? {
        var j := upstream.value;
        result := result[j := result[j].(miners := result[j].miners + [minerStats])];
      }
      forall j | 0 <= j < |result|
        ensures result[j] == upstreams[j].(miners := upstreams[j].miners + AttachedTo(upstreams, proxies[..p + 1], j))
      {
        AttachedToSnoc(upstreams, proxies, p, j);
      }
    }
    assert proxies[..|proxies|] == proxies;
  }

  // ---------------------------------------------------------------------
  // Progress classification (lines 110-127)

  datatype ProgressKind = Waiting | Done | Interrupted | InProgress

  /** A miner's progress line; the label (`Miner #i` in its colour) only with several miners. */
  datatype MinerLine = MinerLine(labelIndex: Option<nat>, labelColor: string, scanSpeed: string, remainingTime: string, progress: real)

  /** The progress cell: its kind, the aggregate percent with the number of
      decimals `toFixed` gets, whether that percent is shown, and the miner lines. */
  datatype ProgressCell = ProgressCell(kind: ProgressKind, percent: real, decimals: nat, showPercent: bool, minerLines: seq<MinerLine>)

  function MinerLineOf(m: MinerStats, isSingleMiner: bool): MinerLine {
    MinerLine(if isSingleMiner then None else Some(m.proxyIndex), if isSingleMiner then "" else m.color, m.scanSpeed, m.remainingTime, m.progress)
  }

  function ProgressCellOf(upstream: Merged, isSingleMiner: bool): (c: ProgressCell)
    ensures c.kind == Waiting <==> upstream.miners == [] && upstream.roundProgress == 0.0
    ensures c.kind == Done <==> upstream.miners == [] && upstream.roundProgress == 100.0
    ensures c.kind == Interrupted <==> upstream.miners == [] && upstream.roundProgress != 0.0 && upstream.roundProgress != 100.0
    ensures c.kind == InProgress <==> upstream.miners != []
    ensures c.percent == upstream.roundProgress
    ensures c.decimals == 0 <==> upstream.roundProgress == 100.0
    ensures c.decimals == 0 || c.decimals == 2
    ensures c.showPercent <==> upstream.miners == [] || !isSingleMiner
    ensures |c.minerLines| == |upstream.miners|
    ensures forall k :: 0 <= k < |upstream.miners| ==> c.minerLines[k] == MinerLineOf(upstream.miners[k], isSingleMiner)
  {
    var rounding := if upstream.roundProgress == 100.0 then 0 else 2;
    var lines := seq(|upstream.miners|, k requires 0 <= k < |upstream.miners| => MinerLineOf(upstream.miners[k], isSingleMiner));
    if upstream.miners == [] then
      var kind := if upstream.roundProgress == 0.0 then Waiting
                  else if upstream.roundProgress == 100.0 then Done
                  else Interrupted;
      ProgressCell(kind, upstream.roundProgress, rounding, true, [])
    else
      ProgressCell(InProgress, upstream.roundProgress, rounding, !isSingleMiner, lines)
  }

  /** A table row: the merged upstream and its progress cell. */
  datatype TableRow = TableRow(upstream: Merged, progress: ProgressCell)

  predicate AllHaveUpstreams(proxies: seq<Proxy>) {
    forall p :: 0 <= p < |proxies| ==> proxies[p].upstreams.Some?
  }

  /** `flatten(proxies.map(proxy => proxy.upstreams.map(u => u.stats)))`. */
  function Flatten(proxies: seq<Proxy>): seq<UpstreamStats> {
    if proxies == [] then []
    else
      var last := proxies[|proxies| - 1];
      Flatten(proxies[..|proxies| - 1]) + (if last.upstreams.Some? then last.upstreams.value else [])
  }

  /** The rows of the table: none until every proxy has upstreams. */
  function TableRows(proxies: Option<seq<Proxy>>, isSingleMiner: bool): seq<TableRow> {
    if proxies.None? || !AllHaveUpstreams(proxies.value) then []
    else
      var attached := AttachAll(MergedAll(Flatten(proxies.value)), proxies.value);
      seq(|attached|, j requires 0 <= j < |attached| => TableRow(attached[j], ProgressCellOf(attached[j], isSingleMiner)))
  }

  // ---------------------------------------------------------------------
  // What the table shows

  lemma {:induction false} MergedAllNames(s: seq<UpstreamStats>)
    ensures |MergedAll(s)| == |FirstAppearances(s)|
    ensures forall j :: 0 <= j < |MergedAll(s)| ==> MergedAll(s)[j].name == FirstAppearances(s)[j] && MergedAll(s)[j].miners == []
  {
    forall j | 0 <= j < |FirstAppearances(s)|
      ensures MergedAll(s)[j].name == FirstAppearances(s)[j] && MergedAll(s)[j].miners == []
    {
      AccumulatedName(s, FirstAppearances(s)[j]);
    }
  }

  lemma RowNames(proxies: seq<Proxy>, isSingleMiner: bool)
    requires AllHaveUpstreams(proxies)
    ensures |TableRows(Some(proxies), isSingleMiner)| == |FirstAppearances(Flatten(proxies))|
    ensures forall j :: 0 <= j < |TableRows(Some(proxies), isSingleMiner)| ==>
              TableRows(Some(proxies), isSingleMiner)[j].upstream.name == FirstAppearances(Flatten(proxies))[j]
  {
    MergedAllNames(Flatten(proxies));
  }

  /** One row per upstream name: no name has two rows ... */
  lemma TableRowsDistinctNames(proxies: seq<Proxy>, isSingleMiner: bool, a: nat, b: nat)
    requires AllHaveUpstreams(proxies)
    requires a < b < |TableRows(Some(proxies), isSingleMiner)|
    ensures TableRows(Some(proxies), isSingleMiner)[a].upstream.name != TableRows(Some(proxies), isSingleMiner)[b].upstream.name
  {
    RowNames(proxies, isSingleMiner);
    FirstAppearancesDistinct(Flatten(proxies));
  }

  /** ... and a name has a row iff some proxy has an upstream of that name. */
  lemma TableRowsCoverNames(proxies: seq<Proxy>, isSingleMiner: bool, name: string)
    requires AllHaveUpstreams(proxies)
    ensures (exists j :: 0 <= j < |TableRows(Some(proxies), isSingleMiner)| && TableRows(Some(proxies), isSingleMiner)[j].upstream.name == name) <==>
            (exists i :: 0 <= i < |Flatten(proxies)| && Flatten(proxies)[i].name == name)
  {
    var names := FirstAppearances(Flatten(proxies));
    RowNames(proxies, isSingleMiner);
    FirstAppearancesNames(Flatten(proxies), name);
    if name in names {
      var j :| 0 <= j < |names| && names[j] == name;
      assert TableRows(Some(proxies), isSingleMiner)[j].upstream.name == name;
    }
  }

  /** A miner's stats appear in at most one row, in a row of the height it is
      scanning, and never once its scan is complete. */
  lemma TableRowsMinerAtMostOnce(proxies: seq<Proxy>, isSingleMiner: bool, m: MinerStats, j: nat, k: nat)
    requires AllHaveUpstreams(proxies)
    requires j < |TableRows(Some(proxies), isSingleMiner)| && k < |TableRows(Some(proxies), isSingleMiner)|
    requires m in TableRows(Some(proxies), isSingleMiner)[j].upstream.miners
    requires m in TableRows(Some(proxies), isSingleMiner)[k].upstream.miners
    ensures j == k
    ensures m.progress != 100.0 && TableRows(Some(proxies), isSingleMiner)[j].upstream.height == m.currentBlockScanning
  {
    var merged := MergedAll(Flatten(proxies));
    MergedAllNames(Flatten(proxies));
    AttachedAtMostOnce(merged, proxies, j, k, m);
    AttachedOnlyToTarget(merged, proxies, j, m);
  }
}
