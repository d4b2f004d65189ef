// What overlapping redemptions can do to an account.
module RedeemOverlap {
  import opened Options
  import opened Tokens
  import opened TokenTransactions

  // ---- What needs one redemption of a user not to overtake another ----

  predicate Passing(d: Database, id: nat, user: nat) {
    id in d.running && d.running[id].Passed? && d.running[id].user == user
  }

  // A look at the account that finds it inactive while another redemption of the same user
  // has had that look and not ended yet.
  predicate Overtakes(d: Database, a: Action) {
    && a.Check? && a.id in d.running && d.running[a.id].Claimed? && Act(d, a).1.Running?
    && exists other :: other in d.running && Passing(d, other, d.running[a.id].user)
  }

  // The admin is seeded while a redemption for that very account has had its look.
  predicate SeedsUnder(d: Database, a: Action) {
    a.CommitSeed? && exists id :: id in d.running && Passing(d, id, a.user)
  }

  predicate Active(db: Accounts, user: nat) { user in db.users && db.users[user].verifiedAt.Some? }

  predicate OnePassed(d: Database) {
    forall id, other :: id in d.running && other in d.running && id != other && d.running[id].Passed? ==>
      !Passing(d, other, d.running[id].user)
  }

  // What a redemption has seen of the account is still so.
  predicate LookHolds(d: Database) {
    forall id :: id in d.running && d.running[id].Passed? ==> !Active(d.committed, d.running[id].user)
  }

  lemma OvertakingPasses(d: Database, a: Action)
    requires Overtakes(d, a)
    ensures !OnePassed(Act(d, a).0)
  {
    var id, e := a.id, Checks(d, a.id).0;
    assert Act(d, a) == Checks(d, id);
    var other :| other in d.running && Passing(d, other, d.running[id].user);
    assert other != id && e.running[other] == d.running[other];
    assert Passing(e, other, e.running[id].user) && e.running[id].Passed?;
  }

  lemma CheckPasses(d: Database, id: nat)
    requires OnePassed(d) && !Overtakes(d, Check(id))
    ensures OnePassed(Checks(d, id).0)
  {
    var e := Checks(d, id).0;
    if id in d.running && d.running[id].Claimed? && Checks(d, id).1.Running? {
      forall x, y | x in e.running && y in e.running && x != y && e.running[x].Passed?
        ensures !Passing(e, y, e.running[x].user)
      {
        assert !Passing(d, x, d.running[id].user) && !Passing(d, y, d.running[id].user);
      }
    }
  }

  // No other step makes a redemption pass.
  lemma OthersPassNone(d: Database, a: Action)
    requires OnePassed(d) && !a.Check?
    ensures OnePassed(Act(d, a).0)
  {
    var e := Act(d, a).0;
    forall x, y | x in e.running && y in e.running && x != y && e.running[x].Passed?
      ensures !Passing(e, y, e.running[x].user)
    {
      assert !Passing(d, y, d.running[x].user);
    }
  }

  lemma StepOvertakesIff(d: Database, a: Action)
    requires OnePassed(d)
    ensures OnePassed(Act(d, a).0) <==> !Overtakes(d, a)
  {
    if Overtakes(d, a) {
      OvertakingPasses(d, a);
    } else if a.Check? {
      CheckPasses(d, a.id);
    } else {
      OthersPassNone(d, a);
    }
  }

  predicate Activation(d: Database, a: Action, user: nat) { Act(d, a).1 == Ended(Activated(user)) }

  // Both finish, one after the other, and both activate the same account.
  predicate BothActivate(d: Database, p: nat, q: nat) {
    && Activates(d, p).1.Ended? && Activates(Activates(d, p).0, q).1.Ended?
    && Activates(d, p).1 == Activates(Activates(d, p).0, q).1
  }

  lemma PassingActivates(d: Database, id: nat, user: nat)
    requires Sound(d) && Passing(d, id, user)
    ensures Activation(d, Activate(id), user)
    ensures var e := Activates(d, id).0;
      && Sound(e) && Active(e.committed, user) && e.running == d.running - {id}
  {
    assert Backed(d.committed, d.running[id]);
    ActivateKeeps(d, id);
  }

  lemma BothActivateIff(d: Database)
    requires Sound(d)
    ensures (exists p, q :: BothActivate(d, p, q)) <==> !OnePassed(d)
  {
    if !OnePassed(d) {
      var p, q :| p in d.running && q in d.running && p != q && d.running[p].Passed?
                  && Passing(d, q, d.running[p].user);
      var user := d.running[p].user;
      PassingActivates(d, p, user);
      PassingActivates(Activates(d, p).0, q, user);
      assert BothActivate(d, p, q);
    }
    if p, q :| BothActivate(d, p, q) {
      assert Passing(d, q, d.running[p].user);
    }
  }

  predicate NoOvertaking(d: Database, acts: seq<Action>) {
    forall i :: 0 <= i < |acts| ==> !Overtakes(RunAll(d, acts[..i]), acts[i])
  }

  lemma {:induction false} OnePassedAt(d: Database, acts: seq<Action>, k: nat)
    requires OnePassed(d) && k <= |acts| && forall i :: 0 <= i < k ==> !Overtakes(RunAll(d, acts[..i]), acts[i])
    ensures OnePassed(RunAll(d, acts[..k]))
  {
    if k > 0 {
      OnePassedAt(d, acts, k - 1);
      StepOvertakesIff(RunAll(d, acts[..k-1]), acts[k-1]);
      RunStep(d, acts, k - 1);
    }
  }

  // At no point of a run can two redemptions of one user both finish, exactly when no look
  // at the account in it overtakes another.
  lemma OneActivationIff(d: Database, acts: seq<Action>)
    requires Sound(d) && OnePassed(d)
    ensures NoOvertaking(d, acts) <==>
      forall k, p, q :: 0 <= k <= |acts| ==> !BothActivate(RunAll(d, acts[..k]), p, q)
  {
    if NoOvertaking(d, acts) {
      forall k, p, q | 0 <= k <= |acts|
        ensures !BothActivate(RunAll(d, acts[..k]), p, q)
      {
        OnePassedAt(d, acts, k);
        RunKeepsSound(d, acts[..k]);
        BothActivateIff(RunAll(d, acts[..k]));
      }
    } else {
      var i :| 0 <= i < |acts| && Overtakes(RunAll(d, acts[..i]), acts[i]);
      OvertakingPasses(RunAll(d, acts[..i]), acts[i]);
      RunStep(d, acts, i);
      RunKeepsSound(d, acts[..i+1]);
      BothActivateIff(RunAll(d, acts[..i+1]));
    }
  }

  // An account no redemption can activate any more.
  predicate Spent(d: Database, user: nat) {
    Active(d.committed, user) && forall id :: id in d.running ==> !Passing(d, id, user)
  }

  lemma SpentStays(d: Database, a: Action, user: nat)
    requires Sound(d) && Spent(d, user)
    ensures Spent(Act(d, a).0, user) && !Activation(d, a, user)
  {
    ActiveStays(d, a, user);
    NonePasses(d, a, user);
    if Activation(d, a, user) {
      ActivationIsActivate(d, a, user);
      assert false;
    }
  }

  lemma ActiveStays(d: Database, a: Action, user: nat)
    requires Sound(d) && Active(d.committed, user)
    ensures Active(Act(d, a).0.committed, user)
  {
    ActKeeps(d, a);
  }

  lemma NonePasses(d: Database, a: Action, user: nat)
    requires Spent(d, user)
    ensures forall id :: id in Act(d, a).0.running ==> !Passing(Act(d, a).0, id, user)
  {
    var e := Act(d, a).0;
    forall id | id in e.running
      ensures !Passing(e, id, user)
    {
      assert id in d.running ==> !Passing(d, id, user);
    }
  }

  lemma {:induction false} SpentFrom(d: Database, acts: seq<Action>, i: nat, j: nat, user: nat)
    requires Sound(d) && i <= j <= |acts| && Spent(RunAll(d, acts[..i]), user)
    ensures Spent(RunAll(d, acts[..j]), user)
  {
    if i < j {
      SpentFrom(d, acts, i, j - 1, user);
      SpentStep(d, acts, j - 1, user);
    }
  }

  lemma SpentStep(d: Database, acts: seq<Action>, i: nat, user: nat)
    requires Sound(d) && i < |acts| && Spent(RunAll(d, acts[..i]), user)
    ensures Spent(RunAll(d, acts[..i+1]), user)
  {
    RunKeepsSound(d, acts[..i]);
    SpentStays(RunAll(d, acts[..i]), acts[i], user);
    RunStep(d, acts, i);
  }

  // So as long as none overtakes another, an account is activated at most once, whatever
  // the purposes of the tokens and whatever else overlaps.
  lemma OneActivationUnlessOvertaken(d: Database, acts: seq<Action>, i: nat, j: nat, user: nat)
    requires Sound(d) && OnePassed(d) && NoOvertaking(d, acts) && i < j < |acts|
    requires Activation(RunAll(d, acts[..i]), acts[i], user)
    ensures !Activation(RunAll(d, acts[..j]), acts[j], user)
  {
    var before := RunAll(d, acts[..i]);
    OnePassedAt(d, acts, i);
    RunKeepsSound(d, acts[..i]);
    RunStep(d, acts, i);
    ActivationSpends(before, acts[i], user);
    SpentFrom(d, acts, i + 1, j, user);
    RunKeepsSound(d, acts[..j]);
    SpentStays(RunAll(d, acts[..j]), acts[j], user);
  }

  lemma ActivationSpends(d: Database, a: Action, user: nat)
    requires Sound(d) && OnePassed(d) && Activation(d, a, user)
    ensures Spent(Act(d, a).0, user)
  {
    ActivationIsActivate(d, a, user);
    PassingActivates(d, a.id, user);
    var e := Act(d, a).0;
    forall id | id in e.running
      ensures !Passing(e, id, user)
    {
      assert !Passing(d, id, user);
    }
  }

  lemma ActivationIsActivate(d: Database, a: Action, user: nat)
    requires Activation(d, a, user)
    ensures a.Activate? && Passing(d, a.id, user)
  {
  }

  // ---- An active account's password ----

  predicate Intrudes(d: Database, a: Action) { Overtakes(d, a) || SeedsUnder(d, a) }

  // The redemption goes through on an account that is active already.
  predicate Rewrites(d: Database, id: nat) {
    Activates(d, id).1.Ended? && Active(d.committed, d.running[id].user)
  }

  predicate FinishRewrites(d: Database, p: nat, q: nat) {
    Rewrites(d, p) || Rewrites(Activates(d, p).0, q)
  }

  lemma IntrudingShows(d: Database, a: Action)
    requires Intrudes(d, a)
    ensures !(OnePassed(Act(d, a).0) && LookHolds(Act(d, a).0))
  {
    if Overtakes(d, a) {
      OvertakingPasses(d, a);
    } else {
      var e := Act(d, a).0;
      var id :| id in d.running && Passing(d, id, a.user);
      assert id in e.running && Active(e.committed, e.running[id].user);
    }
  }

  lemma StepLooks(d: Database, a: Action)
    requires OnePassed(d) && LookHolds(d) && !Intrudes(d, a)
    ensures OnePassed(Act(d, a).0) && LookHolds(Act(d, a).0)
  {
    StepOvertakesIff(d, a);
    match a
    case Check(id) => CheckLooks(d, id);
    case Activate(id) => ActivateLooks(d, id);
    case CommitSeed(user, password, now) => SeedLooks(d, a);
    case _ => OthersLook(d, a);
  }

  lemma CheckLooks(d: Database, id: nat)
    requires LookHolds(d)
    ensures LookHolds(Checks(d, id).0)
  {
  }

  lemma ActivateLooks(d: Database, id: nat)
    requires OnePassed(d) && LookHolds(d)
    ensures LookHolds(Activates(d, id).0)
  {
    var e := Activates(d, id).0;
    forall x | x in e.running && e.running[x].Passed?
      ensures !Active(e.committed, e.running[x].user)
    {
      assert id in d.running && x != id ==> !Passing(d, id, d.running[x].user);
    }
  }

  lemma SeedLooks(d: Database, a: Action)
    requires LookHolds(d) && a.CommitSeed? && !SeedsUnder(d, a)
    ensures LookHolds(Act(d, a).0)
  {
    var e := Act(d, a).0;
    forall x | x in e.running && e.running[x].Passed?
      ensures !Active(e.committed, e.running[x].user)
    {
      assert !Passing(d, x, a.user);
    }
  }

  lemma OthersLook(d: Database, a: Action)
    requires LookHolds(d) && !a.Check? && !a.Activate? && !a.CommitSeed?
    ensures LookHolds(Act(d, a).0)
  {
    var e := Act(d, a).0;
    forall x | x in e.running && e.running[x].Passed?
      ensures !Active(e.committed, e.running[x].user)
    {
      assert x in d.running && d.running[x] == e.running[x];
    }
  }

  lemma RewritesIff(d: Database)
    requires Sound(d)
    ensures (exists p, q :: FinishRewrites(d, p, q)) <==> !(OnePassed(d) && LookHolds(d))
  {
    if !LookHolds(d) {
      var p :| p in d.running && d.running[p].Passed? && Active(d.committed, d.running[p].user);
      PassingActivates(d, p, d.running[p].user);
      assert FinishRewrites(d, p, p);
    } else if !OnePassed(d) {
      var p, q :| p in d.running && q in d.running && p != q && d.running[p].Passed?
                  && Passing(d, q, d.running[p].user);
      PassingActivates(d, p, d.running[p].user);
      PassingActivates(Activates(d, p).0, q, d.running[p].user);
      assert FinishRewrites(d, p, q);
    } else {
      forall p, q
        ensures !FinishRewrites(d, p, q)
      {
        ActivateLooks(d, p);
      }
    }
  }

  predicate NoIntrusion(d: Database, acts: seq<Action>) {
    forall i :: 0 <= i < |acts| ==> !Intrudes(RunAll(d, acts[..i]), acts[i])
  }

  lemma {:induction false} LookHoldsAt(d: Database, acts: seq<Action>, k: nat)
    requires Sound(d) && OnePassed(d) && LookHolds(d) && k <= |acts|
    requires forall i :: 0 <= i < k ==> !Intrudes(RunAll(d, acts[..i]), acts[i])
    ensures Sound(RunAll(d, acts[..k])) && OnePassed(RunAll(d, acts[..k])) && LookHolds(RunAll(d, acts[..k]))
  {
    RunKeepsSound(d, acts[..k]);
    if k > 0 {
      LookHoldsAt(d, acts, k - 1);
      StepLooks(RunAll(d, acts[..k-1]), acts[k-1]);
      RunStep(d, acts, k - 1);
    }
  }

  // At no point of a run can a redemption, or two, finish and rewrite the password of an
  // active account, exactly when none overtakes another and no account is seeded under one.
  lemma ActiveIsNotRewrittenIff(d: Database, acts: seq<Action>)
    requires Sound(d) && OnePassed(d) && LookHolds(d)
    ensures NoIntrusion(d, acts) <==>
      forall k, p, q :: 0 <= k <= |acts| ==> !FinishRewrites(RunAll(d, acts[..k]), p, q)
  {
    if NoIntrusion(d, acts) {
      forall k, p, q | 0 <= k <= |acts|
        ensures !FinishRewrites(RunAll(d, acts[..k]), p, q)
      {
        LookHoldsAt(d, acts, k);
        RewritesIff(RunAll(d, acts[..k]));
      }
    } else {
      var i :| 0 <= i < |acts| && Intrudes(RunAll(d, acts[..i]), acts[i]);
      IntrudingShows(RunAll(d, acts[..i]), acts[i]);
      RunStep(d, acts, i);
      RunKeepsSound(d, acts[..i+1]);
      RewritesIff(RunAll(d, acts[..i+1]));
    }
  }

  // Two tokens of one account not active yet, one of each purpose.
  function TwoTokens(user: nat, g: nat, h: nat): Database {
    Database(Accounts(map[user := User(None, None)],
                      map[g := Token(user, Verify, 10, None), h := Token(user, Claim, 10, None)]), map[])
  }

  function SideBySide(g: nat, h: nat, first: string, second: string): seq<Action> {
    [BeginRedeem(1, g, Verify, first, 0), BeginRedeem(2, h, Claim, second, 0),
     Check(1), Check(2), Activate(1), Activate(2)]
  }

  predicate ValidPassword(password: string) { MIN_PASSWORD_LENGTH <= |password| <= MAX_PASSWORD_LENGTH }

  lemma BothBegin(user: nat, g: nat, h: nat, first: string, second: string)
    requires g != h && ValidPassword(first) && ValidPassword(second)
    ensures
      RunAll(TwoTokens(user, g, h), SideBySide(g, h, first, second)[..2])
        == TwoTokens(user, g, h).(running := map[1 := Claimed(g, user, first, 0), 2 := Claimed(h, user, second, 0)])
  {
    var d, acts := TwoTokens(user, g, h), SideBySide(g, h, first, second);
    RunStep(d, acts, 0);
    RunStep(d, acts, 1);
    assert acts[..0] == [];
    var d1 := Start(d, 1, Claimed(g, user, first, 0));
    assert RunAll(d, acts[..1]) == d1;
    assert !Locked(d1, h);
  }

  function Halfway(user: nat, g: nat, h: nat, first: string, second: string): Database {
    TwoTokens(user, g, h).(running := map[1 := Passed(g, user, first, 0), 2 := Claimed(h, user, second, 0)])
  }

  lemma FirstPasses(user: nat, g: nat, h: nat, first: string, second: string)
    requires g != h && ValidPassword(first) && ValidPassword(second)
    ensures RunAll(TwoTokens(user, g, h), SideBySide(g, h, first, second)[..3]) == Halfway(user, g, h, first, second)
  {
    var d, acts := TwoTokens(user, g, h), SideBySide(g, h, first, second);
    BothBegin(user, g, h, first, second);
    RunStep(d, acts, 2);
    assert RunAll(d, acts[..3]).running == Halfway(user, g, h, first, second).running;
  }

  lemma BothPass(user: nat, g: nat, h: nat, first: string, second: string)
    requires g != h && ValidPassword(first) && ValidPassword(second)
    ensures
      RunAll(TwoTokens(user, g, h), SideBySide(g, h, first, second)[..4])
        == TwoTokens(user, g, h).(running := map[1 := Passed(g, user, first, 0), 2 := Passed(h, user, second, 0)])
  {
    var d, acts := TwoTokens(user, g, h), SideBySide(g, h, first, second);
    FirstPasses(user, g, h, first, second);
    RunStep(d, acts, 3);
    assert RunAll(d, acts[..4]).running == map[1 := Passed(g, user, first, 0), 2 := Passed(h, user, second, 0)];
  }

  // Without that it is not: a token of each purpose, redeemed side by side, both pass the
  // look at the account, both activate it, and the later password stays.
  lemma BothPurposesActivate(user: nat, g: nat, h: nat, first: string, second: string)
    requires g != h && ValidPassword(first) && ValidPassword(second)
    ensures
      var d, acts := TwoTokens(user, g, h), SideBySide(g, h, first, second);
      && Sound(d) && OnePassed(d) && LookHolds(d) && Overtakes(RunAll(d, acts[..3]), acts[3])
      && Activation(RunAll(d, acts[..4]), acts[4], user) && Activation(RunAll(d, acts[..5]), acts[5], user)
      && RunAll(d, acts).committed.users[user] == User(Some(second), Some(0))
  {
    var d, acts := TwoTokens(user, g, h), SideBySide(g, h, first, second);
    BothPass(user, g, h, first, second);
    FirstPasses(user, g, h, first, second);
    assert Passing(RunAll(d, acts[..3]), 1, user);
    RunStep(d, acts, 4);
    RunStep(d, acts, 5);
    assert acts[..6] == acts;
  }
}
