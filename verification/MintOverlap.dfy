// What overlapping mints do to a user's live tokens of one purpose.
module MintOverlap {
  import opened Options
  import opened Tokens
  import opened TokenTransactions

  // A mint, waiting or not, whose token could still be redeemed at `now`.
  predicate Fresh(t: Transaction, user: nat, p: Purpose, now: int) {
    t.Minting? && t.user == user && t.purpose == p && t.now + Ttl(p) > now
  }

  // A mint that starts while another of the same user and purpose is running, near enough
  // in time for both tokens to be good at `now`.
  predicate MintsOverlap(d: Database, a: Action, now: int) {
    && a.BeginMint? && Act(d, a).1.Running? && a.now + Ttl(a.purpose) > now
    && exists id :: id in d.running && Fresh(d.running[id], a.user, a.purpose, now)
  }

  predicate MintedBy(acts: seq<Action>, now: int) {
    forall i :: 0 <= i < |acts| && acts[i].BeginMint? ==> acts[i].now <= now
  }

  predicate NoMintsOverlap(d: Database, acts: seq<Action>, now: int) {
    forall i :: 0 <= i < |acts| ==> !MintsOverlap(RunAll(d, acts[..i]), acts[i], now)
  }

  // ---- Without overlap ----

  // Every rival of the token being minted is retired by it, or still to come to, or past
  // redeeming.
  predicate Covers(db: Accounts, t: Transaction, now: int) {
    t.Minting? && t.now + Ttl(t.purpose) > now ==>
      && t.now <= now
      && forall h | && h in db.tokens && h !in t.retired && h !in t.left
                    && db.tokens[h].user == t.user && db.tokens[h].purpose == t.purpose ::
           !Live(db.tokens[h], now)
  }

  predicate OneMint(d: Database, now: int) {
    forall id, other :: id in d.running && other in d.running && id != other && d.running[id].Minting?
                        && d.running[id].now + Ttl(d.running[id].purpose) > now ==>
      !Fresh(d.running[other], d.running[id].user, d.running[id].purpose, now)
  }

  predicate AllCover(d: Database, now: int) {
    forall id :: id in d.running ==> Covers(d.committed, d.running[id], now)
  }

  ghost predicate MintsCover(d: Database, now: int) {
    Sound(d) && OneLive(d.committed, now) && AllCover(d, now) && OneMint(d, now)
  }

  // A commit that only uses tokens up leaves covered what was covered.
  predicate OnlyUses(a: Accounts, b: Accounts) {
    && b.tokens.Keys == a.tokens.Keys
    && forall h :: h in a.tokens ==> b.tokens[h].(usedAt := a.tokens[h].usedAt) == a.tokens[h]
                                     && (a.tokens[h].usedAt.Some? ==> b.tokens[h].usedAt.Some?)
  }

  lemma MintedOneLive(db: Accounts, t: Transaction, now: int)
    requires t.Minting? && t.left == {} && OneLive(db, now) && Covers(db, t, now) && t.hash !in db.tokens
    ensures OneLive(Minted(db, t), now)
  {
    var tokens := Minted(db, t).tokens;
    forall g | g in tokens && g != t.hash && Rivals(tokens[g], tokens[t.hash]) && Live(tokens[t.hash], now)
      ensures !Live(tokens[g], now)
    {
    }
  }

  lemma MintedCovers(db: Accounts, t: Transaction, u: Transaction, now: int)
    requires t.Minting? && t.hash !in db.tokens && Covers(db, u, now)
    requires t.now + Ttl(t.purpose) > now ==> !Fresh(u, t.user, t.purpose, now)
    ensures Covers(Minted(db, t), u, now)
  {
  }

  // The mints still running are those there were, each perhaps further on.
  predicate SameMints(d: Database, e: Database) {
    forall id :: id in e.running && e.running[id].Minting? ==>
      && id in d.running && d.running[id].Minting?
      && e.running[id] == d.running[id].(left := e.running[id].left, retired := e.running[id].retired)
  }

  lemma FewerMints(d: Database, e: Database, now: int)
    requires OneMint(d, now) && SameMints(d, e)
    ensures OneMint(e, now)
  {
    forall id, other | id in e.running && other in e.running && id != other && e.running[id].Minting?
                       && e.running[id].now + Ttl(e.running[id].purpose) > now
      ensures !Fresh(e.running[other], e.running[id].user, e.running[id].purpose, now)
    {
      if e.running[other].Minting? {
        assert !Fresh(d.running[other], d.running[id].user, d.running[id].purpose, now);
      }
    }
  }

  lemma CommitCovers(d: Database, id: nat, now: int)
    requires MintsCover(d, now)
    ensures MintsCover(MintCommits(d, id).0, now)
  {
    if id in d.running && d.running[id].Minting? && d.running[id].left == {} {
      var t, e := d.running[id], MintCommits(d, id).0;
      assert Backed(d.committed, t);
      forall other | other in e.running
        ensures Covers(e.committed, e.running[other], now)
      {
        MintedCovers(d.committed, t, d.running[other], now);
      }
      MintedOneLive(d.committed, t, now);
      MintCommitKeeps(d, id);
      FewerMints(d, e, now);
    }
  }

  // The UPDATE passes over a rival only if nobody can redeem it any more.
  lemma RetireCovers(d: Database, id: nat, h: nat, now: int)
    requires MintsCover(d, now)
    ensures MintsCover(Retires(d, id, h).0, now)
  {
    if Retires(d, id, h).1.Running? {
      var t, e := d.running[id], Retires(d, id, h).0;
      RetireKeeps(d, id, h);
      CameToCovers(d.committed, t, h, now);
      FewerMints(d, e, now);
    }
  }

  lemma CameToCovers(db: Accounts, t: Transaction, h: nat, now: int)
    requires t.Minting? && Covers(db, t, now)
    ensures Covers(db, CameTo(t, db, h), now)
  {
  }

  predicate UnchangedMints(d: Database, e: Database) {
    forall id :: id in e.running && e.running[id].Minting? ==> id in d.running && d.running[id] == e.running[id]
  }

  // No mint was begun, and nothing was committed but uses.
  lemma OtherCovers(d: Database, e: Database, now: int)
    requires MintsCover(d, now) && Sound(e) && OnlyUses(d.committed, e.committed)
    requires UnchangedMints(d, e)
    ensures MintsCover(e, now)
  {
    forall id | id in e.running
      ensures Covers(e.committed, e.running[id], now)
    {
      if e.running[id].Minting? { UsesKeepCover(d.committed, e.committed, d.running[id], now); }
    }
    UsesKeepOneLive(d.committed, e.committed, now);
    FewerMints(d, e, now);
  }

  lemma UsesKeepCover(a: Accounts, b: Accounts, t: Transaction, now: int)
    requires OnlyUses(a, b)
    ensures Covers(a, t, now) ==> Covers(b, t, now)
  {
  }

  lemma UsesKeepOneLive(a: Accounts, b: Accounts, now: int)
    requires OnlyUses(a, b) && OneLive(a, now)
    ensures OneLive(b, now)
  {
  }

  lemma OnlyMintsAdd(d: Database, a: Action)
    requires !a.CommitMint? && !a.BeginMint? && !a.Retire?
    ensures var e := Act(d, a).0;
      && OnlyUses(d.committed, e.committed)
      && UnchangedMints(d, e)
  {
  }

  lemma BeginCovers(d: Database, a: Action, now: int)
    requires MintsCover(d, now) && a.BeginMint? && !MintsOverlap(d, a, now) && a.now <= now
    ensures MintsCover(Act(d, a).0, now)
  {
    ActKeeps(d, a);
    if Act(d, a).1.Running? {
      var t := Minting(a.user, a.purpose, a.hash, a.now, LiveRivals(d.committed, a.user, a.purpose, a.now), {});
      var e := Start(d, a.id, t);
      assert Covers(e.committed, t, now);
      forall other | other in d.running && t.now + Ttl(t.purpose) > now
        ensures !Fresh(d.running[other], a.user, a.purpose, now)
      {
        assert Fresh(d.running[other], a.user, a.purpose, now) ==> MintsOverlap(d, a, now);
      }
      StartIsOneMint(d, a.id, t, now);
    }
  }

  lemma StartIsOneMint(d: Database, id: nat, t: Transaction, now: int)
    requires OneMint(d, now) && id !in d.running && t.Minting?
    requires forall other :: other in d.running && t.now + Ttl(t.purpose) > now ==>
      !Fresh(d.running[other], t.user, t.purpose, now)
    ensures OneMint(Start(d, id, t), now)
  {
  }

  lemma StepCovers(d: Database, a: Action, now: int)
    requires MintsCover(d, now) && !MintsOverlap(d, a, now) && (a.BeginMint? ==> a.now <= now)
    ensures MintsCover(Act(d, a).0, now)
  {
    match a
    case CommitMint(id) => CommitCovers(d, id, now);
    case Retire(id, h) => RetireCovers(d, id, h, now);
    case BeginMint(id, user, p, h, start) => BeginCovers(d, a, now);
    case _ =>
      ActKeeps(d, a);
      OnlyMintsAdd(d, a);
      OtherCovers(d, Act(d, a).0, now);
  }

  lemma {:induction false} CoversAt(d: Database, acts: seq<Action>, k: nat, now: int)
    requires MintsCover(d, now) && MintedBy(acts, now) && k <= |acts| && NoMintsOverlap(d, acts, now)
    ensures MintsCover(RunAll(d, acts[..k]), now)
  {
    if k > 0 {
      CoversAt(d, acts, k - 1, now);
      StepCovers(RunAll(d, acts[..k-1]), acts[k-1], now);
      RunStep(d, acts, k - 1);
    }
  }

  // ---- With overlap ----

  // A continuation of a run that begins no mint.
  predicate Closing(more: seq<Action>) { forall i :: 0 <= i < |more| ==> !more[i].BeginMint? }

  function Only(running: map<nat, Transaction>, keep: set<nat>): map<nat, Transaction> {
    map id | id in running && id in keep :: running[id]
  }

  lemma AbortOthers(d: Database, keep: set<nat>) returns (more: seq<Action>)
    ensures Closing(more) && RunAll(d, more) == d.(running := Only(d.running, keep))
    decreases d.running.Keys - keep
  {
    if id :| id in d.running && id !in keep {
      var e := End(d, id);
      assert e.running.Keys - keep == d.running.Keys - keep - {id};
      var rest := AbortOthers(e, keep);
      more := [Abort(id)] + rest;
      RunJoin(d, [Abort(id)], rest);
      One(d, Abort(id));
      assert Only(e.running, keep) == Only(d.running, keep);
    } else {
      more := [];
      assert Only(d.running, keep) == d.running;
    }
  }

  lemma Listing(s: set<nat>) returns (order: seq<nat>)
    ensures forall h :: h in order <==> h in s
  {
    if h :| h in s {
      var rest := Listing(s - {h});
      order := [h] + rest;
    } else {
      order := [];
    }
  }

  // A mint that nothing stands in the way of comes to all its rows and commits.
  lemma FinishMint(d: Database, id: nat) returns (more: seq<Action>, t: Transaction)
    requires id in d.running && d.running[id].Minting? && forall h :: h in d.running[id].left ==> !Locked(d, h)
    ensures Closing(more) && t.Minting?
    ensures t == d.running[id].(left := {}, retired := t.retired)
    ensures t.retired <= d.running[id].left + d.running[id].retired
    ensures RunAll(d, more) == End(d, id).(committed := Minted(d.committed, t))
  {
    var order := Listing(d.running[id].left);
    more := Retirals(id, order) + [CommitMint(id)];
    t := Through(d.running[id], d.committed, Members(order));
    RetireAll(d, id, order);
    RunJoin(d, Retirals(id, order), [CommitMint(id)]);
    One(Start(d, id, t), CommitMint(id));
    assert d.running[id := t] - {id} == d.running - {id};
  }

  lemma ClosingJoin(a: seq<Action>, b: seq<Action>)
    requires Closing(a) && Closing(b)
    ensures Closing(a + b)
  {
  }

  // The two tokens, once both mints have committed.
  predicate BothGood(db: Accounts, g: nat, h: nat, now: int) {
    && g != h && g in db.tokens && h in db.tokens && Rivals(db.tokens[g], db.tokens[h])
    && Live(db.tokens[g], now) && Live(db.tokens[h], now)
  }

  lemma BothFinish(d: Database, p: nat, q: nat, now: int) returns (more: seq<Action>)
    requires Sound(d) && p != q && d.running.Keys == {p, q}
    requires d.running[p].Minting? && d.running[q].Minting? && d.running[q].retired == {}
    requires d.running[p].hash !in d.running[q].left
    requires Fresh(d.running[p], d.running[q].user, d.running[q].purpose, now)
    requires d.running[q].now + Ttl(d.running[q].purpose) > now
    ensures Closing(more) && BothGood(RunAll(d, more).committed, d.running[p].hash, d.running[q].hash, now)
  {
    assert Backed(d.committed, d.running[p]) && Apart(d.running[p], d.running[q]);
    var first, t := FinishMint(d, p);
    var e := RunAll(d, first);
    assert e.running.Keys == {q} && e.running[q] == d.running[q];
    var second, u := FinishMint(e, q);
    ClosingJoin(first, second);
    RunJoin(d, first, second);
    more := first + second;
  }

  // Two mints that overlap, whether or not the second had to wait for the first, retire
  // neither the other's token. So from every state there is a way for both to commit that
  // leaves two, until the first of the two expires.
  lemma OverlappingMintsLeaveTwo(d: Database, a: Action, other: nat, now: int) returns (more: seq<Action>)
    requires Sound(d) && a.BeginMint? && Act(d, a).1.Running? && a.now + Ttl(a.purpose) > now
    requires other in d.running && Fresh(d.running[other], a.user, a.purpose, now)
    ensures Closing(more)
    ensures BothGood(RunAll(Act(d, a).0, more).committed, d.running[other].hash, a.hash, now)
  {
    var e := Act(d, a).0;
    ActKeeps(d, a);
    assert Backed(d.committed, d.running[other]);
    var aborts := AbortOthers(e, {other, a.id});
    var f := RunAll(e, aborts);
    RunKeepsSound(e, aborts);
    assert f.running.Keys == {other, a.id};
    var rest := BothFinish(f, other, a.id, now);
    ClosingJoin(aborts, rest);
    RunJoin(e, aborts, rest);
    more := aborts + rest;
  }

  // However the transactions running at any point of a run end, they leave a user at most
  // one token of a purpose redeemable at `now`, exactly when no two mints of the run whose
  // tokens could be good then overlap.
  lemma OneLiveIff(d: Database, acts: seq<Action>, now: int)
    requires MintsCover(d, now) && MintedBy(acts, now)
    ensures NoMintsOverlap(d, acts, now) <==>
      forall k, more :: 0 <= k <= |acts| && Closing(more) ==>
        OneLive(RunAll(RunAll(d, acts[..k]), more).committed, now)
  {
    if NoMintsOverlap(d, acts, now) {
      forall k, more | 0 <= k <= |acts| && Closing(more)
        ensures OneLive(RunAll(RunAll(d, acts[..k]), more).committed, now)
      {
        CoversAt(d, acts, k, now);
        CoversAt(RunAll(d, acts[..k]), more, |more|, now);
        assert more[..|more|] == more;
      }
    } else {
      var i :| 0 <= i < |acts| && MintsOverlap(RunAll(d, acts[..i]), acts[i], now);
      var more := OverlapEnds(d, acts, i, now);
      assert !OneLive(RunAll(RunAll(d, acts[..i+1]), more).committed, now);
    }
  }

  lemma OverlapEnds(d: Database, acts: seq<Action>, i: nat, now: int) returns (more: seq<Action>)
    requires Sound(d) && i < |acts| && MintsOverlap(RunAll(d, acts[..i]), acts[i], now)
    ensures Closing(more) && !OneLive(RunAll(RunAll(d, acts[..i+1]), more).committed, now)
  {
    var before, a := RunAll(d, acts[..i]), acts[i];
    var other :| other in before.running && Fresh(before.running[other], a.user, a.purpose, now);
    RunKeepsSound(d, acts[..i]);
    more := OverlappingMintsLeaveTwo(before, a, other, now);
    RunStep(d, acts, i);
  }

  // As long as none do, at most one of a user's tokens of one purpose can be redeemed.
  lemma OneLiveWithoutOverlap(d: Database, acts: seq<Action>, now: int, g: nat, h: nat)
    requires Sound(d) && d.running == map[] && OneLive(d.committed, now) && g != h
    requires MintedBy(acts, now) && NoMintsOverlap(d, acts, now)
    ensures var t := RunAll(d, acts).committed.tokens;
      g in t && h in t && Rivals(t[g], t[h]) ==> !(Live(t[g], now) && Live(t[h], now))
  {
    CoversAt(d, acts, |acts|, now);
    assert acts[..|acts|] == acts;
  }

  // ---- Pressing resend twice ----

  // A user with a live token, and two mints of another: the second comes to the token while
  // the first holds it, waits, and then finds it used.
  function OneToken(user: nat, p: Purpose, g: nat): Database {
    Database(Accounts(map[user := User(None, None)], map[g := Token(user, p, Ttl(p), None)]), map[])
  }

  function ResendTwice(user: nat, p: Purpose, g: nat, h: nat, k: nat): seq<Action> {
    [BeginMint(1, user, p, h, 0), Retire(1, g), BeginMint(2, user, p, k, 0), Retire(2, g),
     CommitMint(1), Retire(2, g), CommitMint(2)]
  }

  function ResentBy(user: nat, p: Purpose, g: nat, h: nat): Accounts {
    Accounts(map[user := User(None, None)],
             map[g := Token(user, p, Ttl(p), Some(0)), h := Token(user, p, Ttl(p), None)])
  }

  lemma FirstHolds(user: nat, p: Purpose, g: nat, h: nat, k: nat)
    requires g != h && g != k && h != k
    ensures
      var d, acts := OneToken(user, p, g), ResendTwice(user, p, g, h, k);
      && RunAll(d, acts[..2]) == d.(running := map[1 := Minting(user, p, h, 0, {}, {g})])
      && MintsOverlap(RunAll(d, acts[..2]), acts[2], 0)
  {
    var d, acts := OneToken(user, p, g), ResendTwice(user, p, g, h, k);
    RunStep(d, acts, 0);
    RunStep(d, acts, 1);
    assert acts[..0] == [] && LiveRivals(d.committed, user, p, 0) == {g};
    var begun := Minting(user, p, h, 0, {g}, {});
    assert RunAll(d, acts[..1]) == Start(d, 1, begun);
    assert CameTo(begun, d.committed, g) == Minting(user, p, h, 0, {}, {g});
    assert RunAll(d, acts[..2]).running == map[1 := Minting(user, p, h, 0, {}, {g})];
    assert Fresh(RunAll(d, acts[..2]).running[1], user, p, 0);
  }

  lemma SecondWaits(user: nat, p: Purpose, g: nat, h: nat, k: nat)
    requires g != h && g != k && h != k
    ensures
      var d, acts := OneToken(user, p, g), ResendTwice(user, p, g, h, k);
      && RunAll(d, acts[..3])
         == d.(running := map[1 := Minting(user, p, h, 0, {}, {g}), 2 := Minting(user, p, k, 0, {g}, {})])
      && Act(RunAll(d, acts[..3]), acts[3]) == (RunAll(d, acts[..3]), Waits)
  {
    var d, acts := OneToken(user, p, g), ResendTwice(user, p, g, h, k);
    FirstHolds(user, p, g, h, k);
    RunStep(d, acts, 2);
    assert LiveRivals(d.committed, user, p, 0) == {g};
    var e := RunAll(d, acts[..3]);
    assert e.running == map[1 := Minting(user, p, h, 0, {}, {g}), 2 := Minting(user, p, k, 0, {g}, {})];
    assert Holds(e.running[1], g);
  }

  lemma FirstCommits(user: nat, p: Purpose, g: nat, h: nat, k: nat)
    requires g != h && g != k && h != k
    ensures
      RunAll(OneToken(user, p, g), ResendTwice(user, p, g, h, k)[..5])
        == Database(ResentBy(user, p, g, h), map[2 := Minting(user, p, k, 0, {g}, {})])
  {
    var d, acts := OneToken(user, p, g), ResendTwice(user, p, g, h, k);
    SecondWaits(user, p, g, h, k);
    RunStep(d, acts, 3);
    RunStep(d, acts, 4);
    var first, second := Minting(user, p, h, 0, {}, {g}), Minting(user, p, k, 0, {g}, {});
    FirstMinted(user, p, g, h);
    assert map[1 := first, 2 := second] - {1} == map[2 := second];
  }

  lemma FirstMinted(user: nat, p: Purpose, g: nat, h: nat)
    requires g != h
    ensures Minted(OneToken(user, p, g).committed, Minting(user, p, h, 0, {}, {g})) == ResentBy(user, p, g, h)
  {
    var tokens := OneToken(user, p, g).committed.tokens;
    assert UsedUp(tokens, {g}, 0) == map[g := Token(user, p, Ttl(p), Some(0))];
  }

  lemma SecondFinds(user: nat, p: Purpose, g: nat, h: nat, k: nat)
    requires g != h && g != k && h != k
    ensures
      RunAll(OneToken(user, p, g), ResendTwice(user, p, g, h, k)[..6])
        == Database(ResentBy(user, p, g, h), map[2 := Minting(user, p, k, 0, {}, {})])
  {
    var d, acts := OneToken(user, p, g), ResendTwice(user, p, g, h, k);
    FirstCommits(user, p, g, h, k);
    RunStep(d, acts, 5);
    var waiting := Minting(user, p, k, 0, {g}, {});
    assert CameTo(waiting, ResentBy(user, p, g, h), g) == Minting(user, p, k, 0, {}, {});
    assert RunAll(d, acts[..6]).running == map[2 := Minting(user, p, k, 0, {}, {})];
  }

  lemma ResendTwiceLeavesTwo(user: nat, p: Purpose, g: nat, h: nat, k: nat)
    requires g != h && g != k && h != k
    ensures
      var d, acts := OneToken(user, p, g), ResendTwice(user, p, g, h, k);
      && Sound(d) && OneLive(d.committed, 0) && ReplyTo(d, acts, 3) == Waits
      && MintsOverlap(RunAll(d, acts[..2]), acts[2], 0)
      && BothGood(RunAll(d, acts).committed, h, k, 0)
  {
    var d, acts := OneToken(user, p, g), ResendTwice(user, p, g, h, k);
    FirstHolds(user, p, g, h, k);
    SecondWaits(user, p, g, h, k);
    SecondFinds(user, p, g, h, k);
    RunStep(d, acts, 6);
    assert acts[..7] == acts;
  }
}
