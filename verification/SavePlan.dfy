/** The save-bucket scheduler that the logic and the monitor role services share.

    A tick with no bucket left deals every tracked role over 20 buckets, rotating the list
    after each role; every tick then pops one bucket from the back and visits its roles. */
module SavePlan {

  const CAPACITY: nat := 255
  const FULL_LOAD: nat := 5100     // 20 buckets of 255

  function Min(a: nat, b: nat): nat {
    if a < b then a else b
  }

  // ----- The plan in closed form -----

  /** How many roles of an enumeration of n lie at positions c, c + 20, c + 40, ... */
  function ColumnSize(n: nat, c: nat): nat
    requires c < 20
  {
    (n + 19 - c) / 20
  }

  /** The roles at those positions. */
  function Column(order: seq<int>, c: nat): (column: seq<int>)
    requires c < 20
    ensures |column| == ColumnSize(|order|, c)
  {
    seq(ColumnSize(|order|, c), j requires 0 <= j < ColumnSize(|order|, c) => order[c + 20 * j])
  }

  /** How many buckets a plan for n roles has. */
  function PlanSize(n: nat): nat {
    20 + n - Min(n, FULL_LOAD)
  }

  /** Bucket i of the plan: the first 5100 roles go to 20 columns, every further role stands alone. */
  function Bucket(order: seq<int>, i: nat): seq<int>
    requires i < PlanSize(|order|)
  {
    if i >= 20 then [order[FULL_LOAD + (i - 20)]]
    else if |order| < FULL_LOAD then Column(order, (|order| + i) % 20)
    else Column(order[..FULL_LOAD], i)
  }

  function FirstBuckets(order: seq<int>, n: nat): (buckets: seq<seq<int>>)
    requires n <= PlanSize(|order|)
    ensures |buckets| == n
  {
    if n == 0 then [] else FirstBuckets(order, n - 1) + [Bucket(order, n - 1)]
  }

  function Layout(order: seq<int>): (plan: seq<seq<int>>)
    ensures |plan| == PlanSize(|order|)
  {
    FirstBuckets(order, PlanSize(|order|))
  }

  lemma {:induction false} FirstBucketsAt(order: seq<int>, n: nat, i: nat)
    requires i < n <= PlanSize(|order|)
    ensures FirstBuckets(order, n)[i] == Bucket(order, i)
  {
    var before := FirstBuckets(order, n - 1);
    assert FirstBuckets(order, n) == before + [Bucket(order, n - 1)];
    if i < n - 1 {
      FirstBucketsAt(order, n - 1, i);
    }
  }

  lemma LayoutAt(order: seq<int>, i: nat)
    requires i < PlanSize(|order|)
    ensures Layout(order)[i] == Bucket(order, i)
  {
    FirstBucketsAt(order, PlanSize(|order|), i);
  }

  lemma ColumnExtends(order: seq<int>, x: int, c: nat)
    requires c < 20
    ensures Column(order + [x], c)
         == if |order| % 20 == c then Column(order, c) + [x] else Column(order, c)
  {
    if |order| % 20 == c {
      assert c + 20 * ColumnSize(|order|, c) == |order|;
    }
  }

  /** What one loop iteration makes of the list: a full front bucket gets an empty one put before it;
      the front bucket takes the role and moves to the end. */
  function Place(plan: seq<seq<int>>, x: int): seq<seq<int>>
    requires plan != []
  {
    if |plan[0]| >= CAPACITY then plan + [[x]] else plan[1..] + [plan[0] + [x]]
  }

  lemma Mod20(x: int, y: int)
    ensures (x + 20 * y) % 20 == x % 20
  {
  }

  lemma NextColumn(n: nat, i: nat)
    requires i < 20
    ensures (n + 1 + i) % 20 == n % 20 <==> i == 19
  {
    Mod20(n, 1);
  }

  lemma BucketIsColumn(order: seq<int>, i: nat)
    requires |order| <= FULL_LOAD && i < 20
    ensures Bucket(order, i) == Column(order, (|order| + i) % 20)
  {
    if |order| == FULL_LOAD {
      assert order[..FULL_LOAD] == order;
      Mod20(i, 255);
      assert (|order| + i) % 20 == i;
    }
  }

  lemma BucketExtends(order: seq<int>, x: int, i: nat)
    requires |order| < FULL_LOAD && i < 20
    ensures Bucket(order + [x], i)
         == if i < 19 then Bucket(order, i + 1) else Bucket(order, 0) + [x]
  {
    var n := |order|;
    BucketIsColumn(order + [x], i);
    NextColumn(n, i);
    ColumnExtends(order, x, (n + 1 + i) % 20);
  }

  /** Bucket by bucket, what an iteration does. */
  lemma BucketPlaced(order: seq<int>, x: int, i: nat)
    requires |order| < FULL_LOAD && i < 20
    ensures Layout(order + [x])[i] == if i < 19 then Layout(order)[i + 1] else Layout(order)[0] + [x]
  {
    LayoutAt(order + [x], i);
    LayoutAt(order, if i < 19 then i + 1 else 0);
    BucketExtends(order, x, i);
  }

  lemma BucketAdded(order: seq<int>, x: int, i: nat)
    requires |order| >= FULL_LOAD && i < PlanSize(|order| + 1)
    ensures Layout(order + [x])[i] == if i < PlanSize(|order|) then Layout(order)[i] else [x]
  {
    assert (order + [x])[..FULL_LOAD] == order[..FULL_LOAD];
    LayoutAt(order + [x], i);
    if i < PlanSize(|order|) {
      LayoutAt(order, i);
    }
  }

  lemma LayoutExtends(order: seq<int>, x: int)
    ensures Layout(order + [x]) == Place(Layout(order), x)
  {
    var plan, longer := Layout(order), Layout(order + [x]);
    LayoutAt(order, 0);
    if |order| < FULL_LOAD {
      assert |plan| == |longer| == 20 && |plan[0]| == |order| / 20 < CAPACITY;
      forall i | 0 <= i < 20 ensures longer[i] == Place(plan, x)[i] {
        BucketPlaced(order, x, i);
      }
    } else {
      assert |plan[0]| == CAPACITY;
      forall i | 0 <= i < |longer| ensures longer[i] == Place(plan, x)[i] {
        BucketAdded(order, x, i);
      }
    }
  }

  lemma NextRole(order: seq<int>, k: nat)
    requires k < |order|
    ensures Layout(order[..k]) != [] && Place(Layout(order[..k]), order[k]) == Layout(order[..k + 1])
  {
    LayoutExtends(order[..k], order[k]);
    assert order[..k] + [order[k]] == order[..k + 1];
  }

  lemma LayoutOfNone(empty: seq<seq<int>>)
    requires |empty| == 20 && forall i :: 0 <= i < 20 ==> empty[i] == []
    ensures empty == Layout([])
  {
    forall i | 0 <= i < 20 ensures empty[i] == Layout([])[i] {
      LayoutAt([], i);
      assert Bucket([], i) == [];
    }
  }

  // ----- What the plan promises -----

  /** Bucket count, capacity, and balance: sizes differ by at most one up to 5100 roles;
      beyond that there are 20 full buckets and singletons. */
  lemma PlanSizes(order: seq<int>, i: nat)
    requires i < |Layout(order)|
    ensures |Layout(order)| == 20 + (if |order| <= FULL_LOAD then 0 else |order| - FULL_LOAD)
    ensures |Layout(order)[i]| <= CAPACITY
    ensures |order| <= FULL_LOAD ==> |order| / 20 <= |Layout(order)[i]| <= (|order| + 19) / 20
    ensures |order| > FULL_LOAD ==> |Layout(order)[i]| == if i < 20 then CAPACITY else 1
  {
    LayoutAt(order, i);
  }

  /** The bucket that the role at position k of an enumeration of n roles lands in. */
  function BucketOf(n: nat, k: nat): (i: nat)
    requires k < n
    ensures i < PlanSize(n)
  {
    if k < FULL_LOAD && n < FULL_LOAD then (k + FULL_LOAD - n) % 20
    else if k < FULL_LOAD then k % 20
    else 20 + (k - FULL_LOAD)
  }

  function OffsetOf(k: nat): nat {
    if k < FULL_LOAD then k / 20 else 0
  }

  /** The position whose role fills slot j of bucket i. */
  function PositionOf(n: nat, i: nat, j: nat): nat {
    if i < 20 && n < FULL_LOAD then (n + i) % 20 + 20 * j
    else if i < 20 then i + 20 * j
    else FULL_LOAD + (i - 20)
  }

  /** In the bucket of position k there is column k % 20. */
  lemma ColumnOfPosition(n: nat, k: nat)
    requires k < n < FULL_LOAD
    ensures (n + BucketOf(n, k)) % 20 == k % 20
  {
    var q := (k + FULL_LOAD - n) / 20;
    assert n + BucketOf(n, k) == k + 20 * (255 - q);
    Mod20(k, 255 - q);
  }

  lemma OffsetInColumn(order: seq<int>, k: nat)
    requires k < |order|
    ensures k / 20 < |Column(order, k % 20)| && Column(order, k % 20)[k / 20] == order[k]
  {
    assert k % 20 + 20 * (k / 20) == k;
  }

  lemma SlotInBucket(order: seq<int>, k: nat)
    requires k < |order|
    ensures var bucket, j := Bucket(order, BucketOf(|order|, k)), OffsetOf(k); j < |bucket| && bucket[j] == order[k]
  {
    if k < FULL_LOAD && |order| < FULL_LOAD {
      ColumnOfPosition(|order|, k);
      assert Bucket(order, BucketOf(|order|, k)) == Column(order, k % 20);
      OffsetInColumn(order, k);
    } else if k < FULL_LOAD {
      assert Bucket(order, BucketOf(|order|, k)) == Column(order[..FULL_LOAD], k % 20);
      OffsetInColumn(order[..FULL_LOAD], k);
    }
  }

  /** Every position of the enumeration has its own slot ... */
  lemma SlotOfPosition(order: seq<int>, k: nat)
    requires k < |order|
    ensures var i, j := BucketOf(|order|, k), OffsetOf(k);
      j < |Layout(order)[i]| && Layout(order)[i][j] == order[k] && PositionOf(|order|, i, j) == k
  {
    LayoutAt(order, BucketOf(|order|, k));
    SlotInBucket(order, k);
    if k < FULL_LOAD && |order| < FULL_LOAD {
      ColumnOfPosition(|order|, k);
    }
  }

  /** ... and every slot comes from its own position. */
  lemma PositionOfSlot(order: seq<int>, i: nat, j: nat)
    requires i < |Layout(order)| && j < |Layout(order)[i]|
    ensures var k := PositionOf(|order|, i, j);
      k < |order| && BucketOf(|order|, k) == i && OffsetOf(k) == j && order[k] == Layout(order)[i][j]
  {
    LayoutAt(order, i);
    if i < 20 && |order| < FULL_LOAD {
      ColumnOfBucket(|order|, i, j);
      PositionInColumn(order, (|order| + i) % 20, j);
    } else if i < 20 {
      Mod20(i, j);
      PositionInColumn(order[..FULL_LOAD], i, j);
    }
  }

  lemma PositionInColumn(order: seq<int>, c: nat, j: nat)
    requires c < 20 && j < |Column(order, c)|
    ensures c + 20 * j < |order| && Column(order, c)[j] == order[c + 20 * j] && (c + 20 * j) / 20 == j
  {
  }

  /** Turning the list back by n gives the column's bucket. */
  lemma ColumnOfBucket(n: nat, i: nat, j: nat)
    requires i < 20 && n < FULL_LOAD
    ensures var c := (n + i) % 20;
      (c + 20 * j) % 20 == c && (c + 20 * j) / 20 == j && (c + 20 * j + FULL_LOAD - n) % 20 == i
  {
    var c, q := (n + i) % 20, (n + i) / 20;
    Mod20(c, j);
    assert c + 20 * j + FULL_LOAD - n == i + 20 * (j - q + 255);
    Mod20(i, j - q + 255);
  }

  ghost predicate InSlot(plan: seq<seq<int>>, i: nat, j: nat, r: int) {
    i < |plan| && j < |plan[i]| && plan[i][j] == r
  }

  /** Each tracked role sits in exactly one bucket, exactly once, and nothing else is planned. */
  lemma EachRoleOnce(order: seq<int>, r: int)
    requires forall a, b :: 0 <= a < b < |order| ==> order[a] != order[b]
    ensures r in order <==> exists i, j :: InSlot(Layout(order), i, j, r)
    ensures forall i, j, i', j' ::
      InSlot(Layout(order), i, j, r) && InSlot(Layout(order), i', j', r) ==> i == i' && j == j'
  {
    if r in order {
      var k :| 0 <= k < |order| && order[k] == r;
      SlotOfPosition(order, k);
      assert InSlot(Layout(order), BucketOf(|order|, k), OffsetOf(k), r);
    }
    forall i, j, i', j' | InSlot(Layout(order), i, j, r) && InSlot(Layout(order), i', j', r)
      ensures r in order && i == i' && j == j'
    {
      PositionOfSlot(order, i, j);
      PositionOfSlot(order, i', j');
    }
  }

  // ----- The timer callback -----

  /** The list after the planning part of a tick, which leaves a plan in progress alone. */
  function Filled(buckets: seq<seq<int>>, newPlan: seq<seq<int>>): seq<seq<int>> {
    if buckets == [] then newPlan else buckets
  }

  /** `save_buckets`, and the two loops of the timer callback that change it. */
  class SaveScheduler {
    var saveBuckets: seq<seq<int>>

    constructor ()
      ensures saveBuckets == []
    {
      saveBuckets := [];
    }

    /** The body of the dealing loop. */
    method Deal(roid: int)
      requires saveBuckets != []
      modifies this
      ensures saveBuckets == Place(old(saveBuckets), roid)
    {
      if |saveBuckets[0]| >= CAPACITY {
        saveBuckets := [[]] + saveBuckets;
        assert saveBuckets[1..] == old(saveBuckets) && saveBuckets[0] + [roid] == [roid];
      }
      var first := saveBuckets[0] + [roid];
      saveBuckets := saveBuckets[1..] + [first];
    }

    /** Twenty empty buckets. */
    method Provide()
      requires saveBuckets == []
      modifies this
      ensures saveBuckets == Layout([])
    {
      while |saveBuckets| < 20
        invariant |saveBuckets| <= 20
        invariant forall i :: 0 <= i < |saveBuckets| ==> saveBuckets[i] == []
      {
        saveBuckets := saveBuckets + [[]];
      }
      LayoutOfNone(saveBuckets);
    }

    /** Deals the tracked roles, enumerated by `order`, over the buckets. */
    method Arrange(order: seq<int>)
      requires saveBuckets == []
      modifies this
      ensures saveBuckets == Layout(order)
    {
      Provide();
      assert order[..0] == [];
      for k := 0 to |order|
        invariant saveBuckets == Layout(order[..k])
      {
        NextRole(order, k);
        Deal(order[k]);
      }
      assert order[..|order|] == order;
    }

    /** One tick: plans when no bucket is left, pops the last bucket and drains it from its back. */
    method Tick(order: seq<int>) returns (visited: seq<int>)
      modifies this
      ensures var plan := Filled(old(saveBuckets), Layout(order));
        saveBuckets == plan[..|plan| - 1]
        && |visited| == |plan[|plan| - 1]|
        && forall k :: 0 <= k < |visited| ==> visited[k] == plan[|plan| - 1][|visited| - 1 - k]
    {
      if saveBuckets == [] {
        Arrange(order);
      }
      var bucket := saveBuckets[|saveBuckets| - 1];
      saveBuckets := saveBuckets[..|saveBuckets| - 1];
      ghost var whole := bucket;
      visited := [];
      while bucket != []
        invariant |bucket| + |visited| == |whole| && bucket == whole[..|bucket|]
        invariant forall k :: 0 <= k < |visited| ==> visited[k] == whole[|whole| - 1 - k]
      {
        visited := visited + [bucket[|bucket| - 1]];
        bucket := bucket[..|bucket| - 1];
      }
    }
  }

  // ----- Runs of ticks -----

  /** A run is given by what each tick would plan if it had to: `plans[k]` for tick k. */
  predicate Runnable(plans: seq<seq<seq<int>>>) {
    forall k :: 0 <= k < |plans| ==> plans[k] != []
  }

  /** The buckets left before tick k of a run that starts with none. */
  function Buckets(plans: seq<seq<seq<int>>>, k: nat): seq<seq<int>>
    requires Runnable(plans) && k <= |plans|
  {
    if k == 0 then [] else
    var plan := Filled(Buckets(plans, k - 1), plans[k - 1]);
    plan[..|plan| - 1]
  }

  /** The bucket that tick k visits. */
  function Visited(plans: seq<seq<seq<int>>>, k: nat): seq<int>
    requires Runnable(plans) && k < |plans|
  {
    var plan := Filled(Buckets(plans, k), plans[k]);
    plan[|plan| - 1]
  }

  /** The size of the plan that tick k works on. */
  function ActivePlan(plans: seq<seq<seq<int>>>, k: nat): (size: nat)
    requires Runnable(plans) && k < |plans|
    ensures |Buckets(plans, k)| < size
    ensures exists p :: 0 <= p <= k && size == |plans[p]|
  {
    if Buckets(plans, k) == [] then |plans[k]| else ActivePlan(plans, k - 1)
  }

  /** While a plan lasts, tick after tick pops it from the back. */
  lemma {:induction false} PlanUnrolls(plans: seq<seq<seq<int>>>, k: nat, j: nat)
    requires Runnable(plans) && k + j < |plans|
    requires j < |Filled(Buckets(plans, k), plans[k])|
    ensures var plan := Filled(Buckets(plans, k), plans[k]);
      Visited(plans, k + j) == plan[|plan| - 1 - j] && Buckets(plans, k + j + 1) == plan[..|plan| - 1 - j]
  {
    var plan := Filled(Buckets(plans, k), plans[k]);
    if j > 0 {
      PlanUnrolls(plans, k, j - 1);
      var left := plan[..|plan| - j];
      assert Buckets(plans, k + j) == left && left != [];
      assert left[..|left| - 1] == plan[..|plan| - 1 - j];
    }
  }

  lemma PlanInTurn(plans: seq<seq<seq<int>>>, plan: seq<seq<int>>, k: nat)
    requires Runnable(plans) && k < |plan| <= |plans| && plans[0] == plan
    ensures Visited(plans, k) == plan[|plan| - 1 - k] && Buckets(plans, k + 1) == plan[..|plan| - 1 - k]
  {
    assert Filled(Buckets(plans, 0), plans[0]) == plan;
    PlanUnrolls(plans, 0, k);
  }

  lemma NextPlanInTurn(plans: seq<seq<seq<int>>>, p: seq<seq<int>>, q: seq<seq<int>>, j: nat)
    requires Runnable(plans) && 0 < |p| && |p| + |q| <= |plans| && plans[0] == p && j < |q| && plans[|p|] == q
    ensures Visited(plans, |p| + j) == q[|q| - 1 - j]
  {
    PlanInTurn(plans, p, |p| - 1);
    assert Buckets(plans, |p|) == [];
    assert Filled(Buckets(plans, |p|), plans[|p|]) == q;
    PlanUnrolls(plans, |p|, j);
  }

  /** When the buckets left are used up, a new plan is made. */
  lemma NextPlanStarts(plans: seq<seq<seq<int>>>, s: nat)
    requires Runnable(plans) && s < |plans| && s + |Buckets(plans, s)| < |plans|
    ensures Buckets(plans, s + |Buckets(plans, s)|) == []
  {
    var m := |Buckets(plans, s)|;
    if m > 0 {
      assert Filled(Buckets(plans, s), plans[s]) == Buckets(plans, s);
      PlanUnrolls(plans, s, m - 1);
    }
  }

  /** Bounded staleness, general form: from any tick s of any run, the rest of the plan in progress
      and the whole next plan contain a visit, and together they are at most B1 + B2 - 1 ticks. */
  lemma VisitedWithinTwoPlans(plans: seq<seq<seq<int>>>, s: nat, i: nat, r: int)
    requires Runnable(plans) && s < |plans| && s + |Buckets(plans, s)| < |plans|
    requires var next := plans[s + |Buckets(plans, s)|];
      i < |next| && r in next[i] && s + |Buckets(plans, s)| + |next| <= |plans|
    ensures var m := |Buckets(plans, s)|;
      && ActivePlan(plans, s + m) == |plans[s + m]|
      && m + |plans[s + m]| <= ActivePlan(plans, s) + ActivePlan(plans, s + m) - 1
      && exists k :: s <= k < s + m + |plans[s + m]| && r in Visited(plans, k)
  {
    var m := |Buckets(plans, s)|;
    NextPlanStarts(plans, s);
    var next := plans[s + m];
    PlanUnrolls(plans, s + m, |next| - 1 - i);
    assert r in Visited(plans, s + m + (|next| - 1 - i));
  }

  // ----- Runs over enumerations of the tracked roles -----

  /** The run in which tick k sees the tracked roles in the order `orders[k]`. */
  function Plans(orders: seq<seq<int>>): (plans: seq<seq<seq<int>>>)
    ensures Runnable(plans) && |plans| == |orders|
    ensures forall k :: 0 <= k < |orders| ==> plans[k] == Layout(orders[k])
  {
    seq(|orders|, k requires 0 <= k < |orders| => Layout(orders[k]))
  }

  /** The rest of the plan in progress and the next one are not longer than this. */
  lemma TwoPlansFit(plans: seq<seq<seq<int>>>, s: nat, size: nat)
    requires Runnable(plans) && forall k :: 0 <= k < |plans| ==> |plans[k]| <= size
    requires size > 0 && s + 2 * size - 1 <= |plans|
    ensures var m := |Buckets(plans, s)|;
      s + m < |plans| && m + |plans[s + m]| <= 2 * size - 1
  {
    assert |Buckets(plans, s)| < ActivePlan(plans, s) <= size;
  }

  lemma SlotOf(order: seq<int>, r: int) returns (i: nat)
    requires r in order
    ensures i < |Layout(order)| && r in Layout(order)[i]
  {
    var p :| 0 <= p < |order| && order[p] == r;
    SlotOfPosition(order, p);
    i := BucketOf(|order|, p);
  }

  /** If at most n roles are ever tracked, 2 * PlanSize(n) - 1 consecutive ticks visit each role that
      stays tracked meanwhile, whatever order the table enumerates them in. */
  lemma VisitedInWindow(orders: seq<seq<int>>, s: nat, n: nat, r: int)
    requires s + 2 * PlanSize(n) - 1 <= |orders|
    requires forall k :: s <= k < s + 2 * PlanSize(n) - 1 ==> r in orders[k]
    requires forall k :: 0 <= k < |orders| ==> |orders[k]| <= n
    ensures exists k :: s <= k < s + 2 * PlanSize(n) - 1 && r in Visited(Plans(orders), k)
  {
    var plans := Plans(orders);
    TwoPlansFit(plans, s, PlanSize(n));
    var m := |Buckets(plans, s)|;
    var i := SlotOf(orders[s + m], r);
    VisitedWithinTwoPlans(plans, s, i, r);
  }

  /** With at most 5100 roles the window is 39 ticks. */
  lemma VisitedWithin39Ticks(orders: seq<seq<int>>, s: nat, r: int)
    requires s + 39 <= |orders|
    requires forall k :: s <= k < s + 39 ==> r in orders[k]
    requires forall k :: 0 <= k < |orders| ==> |orders[k]| <= FULL_LOAD
    ensures exists k :: s <= k < s + 39 && r in Visited(Plans(orders), k)
  {
    VisitedInWindow(orders, s, FULL_LOAD, r);
  }

  /** 39 cannot be lowered: here the role is tracked throughout, only the enumeration changes
      between two plans, and none of the 38 ticks in between visits it. */
  lemma ThirtyNineIsTight(last: seq<int>, first: seq<int>, k: nat)
    requires |last| == |first| == 20 && last[19] == first[0] && 1 <= k < 39
    requires forall i :: 0 <= i < 20 ==> (i < 19 ==> last[i] != last[19]) && (i > 0 ==> first[i] != first[0])
    ensures first[0] !in Visited(Plans(seq(40, t => if t < 20 then last else first)), k)
  {
    var plans := Plans(seq(40, t => if t < 20 then last else first));
    if k < 20 {
      FirstPlanVisits(plans, last, k);
      NotInBucket(last, 19 - k, 19);
    } else {
      SecondPlanVisits(plans, last, first, k - 20);
      NotInBucket(first, 39 - k, 0);
    }
  }

  lemma FirstPlanVisits(plans: seq<seq<seq<int>>>, last: seq<int>, k: nat)
    requires Runnable(plans) && k < 20 <= |plans| && |last| == 20 && plans[0] == Layout(last)
    ensures Visited(plans, k) == Layout(last)[19 - k]
  {
    PlanInTurn(plans, Layout(last), k);
  }

  lemma SecondPlanVisits(plans: seq<seq<seq<int>>>, last: seq<int>, first: seq<int>, j: nat)
    requires Runnable(plans) && j < 20 && |plans| == 40 && |last| == |first| == 20
    requires plans[0] == Layout(last) && plans[20] == Layout(first)
    ensures Visited(plans, 20 + j) == Layout(first)[19 - j]
  {
    NextPlanInTurn(plans, Layout(last), Layout(first), j);
  }

  /** Twenty roles have a bucket each. */
  lemma OneEach(order: seq<int>, i: nat)
    requires |order| == 20 && i < 20
    ensures Layout(order)[i] == [order[i]]
  {
    LayoutAt(order, i);
    BucketIsColumn(order, i);
    Mod20(i, 1);
    assert (39 - i) / 20 == 1;
  }

  lemma NotInBucket(order: seq<int>, i: nat, p: nat)
    requires |order| == 20 && i < 20 && p < 20 && p != i
    requires forall q :: 0 <= q < 20 && q != p ==> order[q] != order[p]
    ensures order[p] !in Layout(order)[i]
  {
    OneEach(order, i);
  }

  // ----- The window in general -----

  ghost predicate AllDifferent(order: seq<int>) {
    forall a, b :: 0 <= a < b < |order| ==> order[a] != order[b]
  }

  ghost predicate OnlyIn(plan: seq<seq<int>>, r: int, i: nat) {
    i < |plan| && forall j :: 0 <= j < |plan| ==> (r in plan[j] <==> j == i)
  }

  lemma InOneBucket(order: seq<int>, r: int, i: nat)
    requires AllDifferent(order) && i < |Layout(order)| && r in Layout(order)[i]
    ensures OnlyIn(Layout(order), r, i)
  {
    EachRoleOnce(order, r);
    var plan := Layout(order);
    var m :| 0 <= m < |plan[i]| && plan[i][m] == r;
    assert InSlot(plan, i, m, r);
    forall j | 0 <= j < |plan| && r in plan[j] ensures j == i {
      var n :| 0 <= n < |plan[j]| && plan[j][n] == r;
      assert InSlot(plan, j, n, r);
    }
  }

  /** Two plans for n roles, one after the other. */
  function TwoPlans(last: seq<int>, first: seq<int>): (orders: seq<seq<int>>)
    requires |last| == |first|
    ensures |orders| == 2 * PlanSize(|last|)
    ensures forall k :: 0 <= k < |orders| ==> orders[k] == if k < PlanSize(|last|) then last else first
  {
    seq(2 * PlanSize(|last|), k => if k < PlanSize(|last|) then last else first)
  }

  lemma BothPlans(last: seq<int>, first: seq<int>)
    requires |last| == |first|
    ensures var plans := Plans(TwoPlans(last, first));
      |plans| == 2 * PlanSize(|last|) && plans[0] == Layout(last) && plans[PlanSize(|last|)] == Layout(first)
  {
  }

  lemma EndsOfWindow(plans: seq<seq<seq<int>>>, p: seq<seq<int>>, q: seq<seq<int>>, r: int, k: nat)
    requires Runnable(plans) && 0 < |p| == |q| && 2 * |p| <= |plans| && plans[0] == p && plans[|p|] == q
    requires OnlyIn(p, r, |p| - 1) && OnlyIn(q, r, 0) && k < 2 * |p|
    ensures r in Visited(plans, k) <==> k == 0 || k == 2 * |p| - 1
  {
    if k < |p| {
      PlanInTurn(plans, p, k);
    } else {
      NextPlanInTurn(plans, p, q, k - |p|);
    }
  }

  /** A role in the last bucket of one plan, which is visited first, and in the first bucket of the next one is visited
      at the ends of a window, and not in between. */
  lemma WindowIsTight(last: seq<int>, first: seq<int>, r: int, k: nat)
    requires |last| == |first| && AllDifferent(last) && AllDifferent(first)
    requires r in Layout(last)[PlanSize(|last|) - 1] && r in Layout(first)[0] && k < 2 * PlanSize(|last|)
    ensures r in Visited(Plans(TwoPlans(last, first)), k) <==> k == 0 || k == 2 * PlanSize(|last|) - 1
  {
    BothPlans(last, first);
    InOneBucket(last, r, PlanSize(|last|) - 1);
    InOneBucket(first, r, 0);
    EndsOfWindow(Plans(TwoPlans(last, first)), Layout(last), Layout(first), r, k);
  }
}
