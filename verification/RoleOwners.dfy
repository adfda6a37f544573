/** Who owns a role: the user name under a role ID never changes, in either tier, whatever interleaves. */
module RoleOwners {
  import opened RoleStore

  /** The user name in every copy of a role that is on its way to a database is the one in MySQL. */
  predicate FiberOwner(mysql: map<int, Row>, fiber: Fiber) {
    match fiber
    case StoringNx(roid, record) => roid in mysql && record.row.username == mysql[roid].username
    case Persisting(roid, record) => roid in mysql && record.row.username == mysql[roid].username
    case UnloadWriting(roid, text) => roid in mysql && text.record.row.username == mysql[roid].username
    case UnloadDeleting(roid, text) => roid in mysql && text.record.row.username == mysql[roid].username
    case _ => true
  }

  ghost predicate OwnersOk(s: Store) {
    && WellKeyed(s)
    && (forall k :: k in s.redis ==> s.redis[k].record.row.username == s.mysql[k].username)
    && (forall f :: f in s.fibers ==> FiberOwner(s.mysql, s.fibers[f]))
  }

  /** A logic server stores a role under the user name that it was hydrated with. */
  predicate OwnerKept(s: Store, e: Event)
    requires Enabled(s, e)
  {
    e.LogicSet? ==> e.text.record.row.username == s.mysql[e.roid].username
  }

  ghost predicate SameOwners(m: map<int, Row>, n: map<int, Row>) {
    forall r :: r in m ==> r in n && n[r].username == m[r].username
  }

  lemma ResumeKeepsMySqlOwners(s: Store, f: nat, spelling: nat)
    requires OwnersOk(s) && f in s.fibers
    ensures SameOwners(s.mysql, Resume(s, f, spelling).mysql)
  {
    assert FiberOwner(s.mysql, s.fibers[f]) && FiberAgrees(s.fibers[f]);
  }

  lemma OtherFibersKeepOwner(s: Store, t: Store, f: nat)
    requires OwnersOk(s) && SameOwners(s.mysql, t.mysql)
    requires forall g :: g in t.fibers && g != f ==> g in s.fibers && t.fibers[g] == s.fibers[g]
    requires f in t.fibers ==> FiberOwner(t.mysql, t.fibers[f])
    ensures forall g :: g in t.fibers ==> FiberOwner(t.mysql, t.fibers[g])
  {
    forall g | g in t.fibers ensures FiberOwner(t.mysql, t.fibers[g]) {
      assert g != f ==> FiberOwner(s.mysql, s.fibers[g]);
    }
  }

  lemma ResumeKeepsRedisOwners(s: Store, f: nat, spelling: nat)
    requires OwnersOk(s) && f in s.fibers
    ensures var t := Resume(s, f, spelling);
      forall k :: k in t.redis && k in t.mysql ==> t.redis[k].record.row.username == t.mysql[k].username
  {
    ResumeKeepsMySqlOwners(s, f, spelling);
    assert FiberOwner(s.mysql, s.fibers[f]) && FiberAgrees(s.fibers[f]);
    assert s.redis.Keys <= s.mysql.Keys;
  }

  lemma ResumedFiberKeepsOwner(s: Store, f: nat, spelling: nat)
    requires OwnersOk(s) && f in s.fibers && f in Resume(s, f, spelling).fibers
    ensures FiberOwner(Resume(s, f, spelling).mysql, Resume(s, f, spelling).fibers[f])
  {
    if s.fibers[f].IsUnload() {
      ResumedUnloadKeepsOwner(s, f, spelling);
    } else {
      assert FiberOwner(s.mysql, s.fibers[f]) && FiberAgrees(s.fibers[f]);
      assert s.redis.Keys <= s.mysql.Keys;
    }
  }

  lemma ResumedUnloadKeepsOwner(s: Store, f: nat, spelling: nat)
    requires OwnersOk(s) && f in s.fibers && f in Resume(s, f, spelling).fibers && s.fibers[f].IsUnload()
    ensures FiberOwner(Resume(s, f, spelling).mysql, Resume(s, f, spelling).fibers[f])
  {
    ResumeKeepsMySqlOwners(s, f, spelling);
    assert FiberOwner(s.mysql, s.fibers[f]) && FiberAgrees(s.fibers[f]);
    assert s.redis.Keys <= s.mysql.Keys;
  }

  lemma ResumeKeepsOwners(s: Store, f: nat, spelling: nat)
    requires OwnersOk(s) && f in s.fibers
    ensures OwnersOk(Resume(s, f, spelling))
  {
    var t := Resume(s, f, spelling);
    ResumeKeepsMySqlOwners(s, f, spelling);
    ResumeKeepsRedisOwners(s, f, spelling);
    StepKeepsWellKeyed(s, Go(f, spelling));
    if f in t.fibers {
      ResumedFiberKeepsOwner(s, f, spelling);
    }
    AllOthersStay(s, f, spelling);
    OtherFibersKeepOwner(s, t, f);
  }

  /** In every interleaving, overlapping or not, the owner of a role stays the same in MySQL and in Redis. */
  lemma StepKeepsOwners(s: Store, e: Event)
    requires OwnersOk(s) && Enabled(s, e) && OwnerKept(s, e)
    ensures OwnersOk(Step(s, e)) && SameOwners(s.mysql, Step(s, e).mysql)
  {
    var t := Step(s, e);
    StepKeepsWellKeyed(s, e);
    match e
    case Start(f, fiber) => OtherFibersKeepOwner(s, t, f);
    case Go(f, spelling) =>
      ResumeKeepsOwners(s, f, spelling);
      ResumeKeepsMySqlOwners(s, f, spelling);
    case Abort(f) => OtherFibersKeepOwner(s, t, f);
    case LogicSet(_, _) =>
  }
}
