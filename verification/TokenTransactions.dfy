// The same tokens when transactions overlap, under READ COMMITTED. Redeeming a token claims
// it, then looks at the account, then activates it. Minting one updates the rivals its UPDATE
// saw when it started, one row after the other, and adds the token on commit. A row that an
// open transaction has updated is locked; an UPDATE that comes to it waits, and then looks at
// that row again, but at no row it did not see at its start.
module TokenTransactions {
  import opened Options
  import opened Tokens

  // A redemption that has claimed its token; one that has also found the account inactive;
  // and a mint, with the rivals it has still to come to and those it has retired. None of
  // their writes is committed yet.
  datatype Transaction =
    | Claimed(hash: nat, user: nat, password: string, now: int)
    | Passed(hash: nat, user: nat, password: string, now: int)
    | Minting(user: nat, purpose: Purpose, hash: nat, now: int, left: set<nat>, retired: set<nat>)

  datatype Database = Database(committed: Accounts, running: map<nat, Transaction>)

  datatype Action =
    | BeginRedeem(id: nat, hash: nat, purpose: Purpose, password: string, now: int)
    | Check(id: nat)
    | Activate(id: nat)
    | Abort(id: nat)
    | BeginMint(id: nat, user: nat, purpose: Purpose, hash: nat, now: int)
    | Retire(id: nat, hash: nat)
    | CommitMint(id: nat)
    | CommitContact(user: nat, now: int)
    | CommitReset(user: nat, password: string, now: int)
    | CommitSeed(user: nat, password: string, now: int)
  datatype Reply = Running | Waits | Ended(outcome: Outcome)

  predicate Redeeming(t: Transaction) { t.Claimed? || t.Passed? }

  predicate Holds(t: Transaction, hash: nat) {
    if t.Minting? then hash in t.retired else t.hash == hash
  }

  predicate Locked(d: Database, hash: nat) {
    exists id :: id in d.running && Holds(d.running[id], hash)
  }

  function LiveRivals(a: Accounts, user: nat, p: Purpose, now: int): set<nat> {
    set h | h in a.tokens && a.tokens[h].user == user && a.tokens[h].purpose == p && Live(a.tokens[h], now)
  }

  function UsedUp(tokens: map<nat, Token>, retired: set<nat>, now: int): map<nat, Token> {
    map h | h in tokens :: if h in retired then tokens[h].(usedAt := Some(now)) else tokens[h]
  }

  function End(d: Database, id: nat): Database { d.(running := d.running - {id}) }

  function Start(d: Database, id: nat, t: Transaction): Database { d.(running := d.running[id := t]) }

  predicate AwaitsInsert(d: Database, hash: nat) {
    exists id :: id in d.running && d.running[id].Minting? && d.running[id].hash == hash
  }

  function RedeemBegins(d: Database, id: nat, h: nat, p: Purpose, password: string, now: int): (Database, Reply) {
    if id in d.running then (d, Waits)
    else if !(MIN_PASSWORD_LENGTH <= |password| <= MAX_PASSWORD_LENGTH) then (d, Ended(Refused(PasswordInvalidLength)))
    else if h !in d.committed.tokens || d.committed.tokens[h].purpose != p || !Live(d.committed.tokens[h], now)
    then (d, Ended(Refused(TokenInvalid)))
    else if Locked(d, h) then (d, Waits)
    else (Start(d, id, Claimed(h, d.committed.tokens[h].user, password, now)), Running)
  }

  function Checks(d: Database, id: nat): (Database, Reply) {
    if id !in d.running || !d.running[id].Claimed? then (d, Waits)
    else
      var t := d.running[id];
      if t.user !in d.committed.users || d.committed.users[t.user].verifiedAt.Some?
      then (End(d, id), Ended(Refused(TokenInvalid)))
      else (Start(d, id, Passed(t.hash, t.user, t.password, t.now)), Running)
  }

  function AfterActivation(db: Accounts, t: Transaction): Accounts
    requires Redeeming(t) && t.hash in db.tokens
  {
    Accounts(db.users[t.user := User(Some(t.password), Some(t.now))],
             db.tokens[t.hash := db.tokens[t.hash].(usedAt := Some(t.now))])
  }

  function Activates(d: Database, id: nat): (Database, Reply) {
    if id !in d.running || !d.running[id].Passed? || d.running[id].hash !in d.committed.tokens then (d, Waits)
    else (End(d, id).(committed := AfterActivation(d.committed, d.running[id])), Ended(Activated(d.running[id].user)))
  }

  function MintBegins(d: Database, id: nat, user: nat, p: Purpose, h: nat, now: int): (Database, Reply) {
    if id in d.running then (d, Waits)
    else if user !in d.committed.users || h in d.committed.tokens || AwaitsInsert(d, h)
    then (d, Ended(Refused(DatabaseError)))
    else (Start(d, id, Minting(user, p, h, now, LiveRivals(d.committed, user, p, now), {})), Running)
  }

  // The UPDATE comes to a row it saw: it retires the token, if the row as committed by now
  // still matches, or passes it over.
  function CameTo(t: Transaction, db: Accounts, h: nat): Transaction
    requires t.Minting?
  {
    t.(left := t.left - {h},
       retired := if h in db.tokens && Live(db.tokens[h], t.now) then t.retired + {h} else t.retired)
  }

  function Retires(d: Database, id: nat, h: nat): (Database, Reply) {
    if id !in d.running || !d.running[id].Minting? || h !in d.running[id].left || Locked(d, h) then (d, Waits)
    else (Start(d, id, CameTo(d.running[id], d.committed, h)), Running)
  }

  function Minted(db: Accounts, t: Transaction): Accounts
    requires t.Minting?
  {
    db.(tokens := UsedUp(db.tokens, t.retired, t.now)[t.hash := Token(t.user, t.purpose, t.now + Ttl(t.purpose), None)])
  }

  function MintCommits(d: Database, id: nat): (Database, Reply) {
    if id !in d.running || !d.running[id].Minting? || d.running[id].left != {} then (d, Waits)
    else (End(d, id).(committed := Minted(d.committed, d.running[id])), Ended(Done))
  }

  function Act(d: Database, a: Action): (Database, Reply) {
    match a
    case BeginRedeem(id, h, p, password, now) => RedeemBegins(d, id, h, p, password, now)
    case Check(id) => Checks(d, id)
    case Activate(id) => Activates(d, id)
    case Abort(id) => (End(d, id), Ended(Refused(DatabaseError)))
    case BeginMint(id, user, p, h, now) => MintBegins(d, id, user, p, h, now)
    case Retire(id, h) => Retires(d, id, h)
    case CommitMint(id) => MintCommits(d, id)
    case CommitContact(user, now) => (d.(committed := Step(d.committed, CreateContact(user, now)).0), Ended(Done))
    case CommitReset(user, password, now) =>
      (d.(committed := Step(d.committed, ResetPassword(user, password, now)).0),
       Ended(Step(d.committed, ResetPassword(user, password, now)).1))
    case CommitSeed(user, password, now) =>
      (d.(committed := Step(d.committed, SeedAdmin(user, password, now)).0), Ended(Done))
  }

  function RunAll(d: Database, acts: seq<Action>): Database {
    if acts == [] then d else Act(RunAll(d, acts[..|acts|-1]), acts[|acts|-1]).0
  }

  function ReplyTo(d: Database, acts: seq<Action>, i: nat): Reply
    requires i < |acts|
  {
    Act(RunAll(d, acts[..i]), acts[i]).1
  }

  // ---- One transaction after another ----

  lemma Two(d: Database, a: Action, b: Action)
    ensures RunAll(d, [a]) == Act(d, a).0 && RunAll(d, [a, b]) == Act(Act(d, a).0, b).0
  {
    assert [a, b][..1] == [a] && [a][..0] == [];
  }

  lemma StartThenEnd(d: Database, id: nat, t: Transaction)
    requires id !in d.running
    ensures End(Start(d, id, t), id) == d && End(d, id) == d
  {
    assert d.running[id := t] - {id} == d.running && d.running - {id} == d.running;
  }

  // A redemption nothing comes between is the redemption of the serial model.
  lemma SerialRedeem(d: Database, id: nat, h: nat, p: Purpose, password: string, now: int)
    requires id !in d.running && !Locked(d, h)
    ensures RunAll(d, [BeginRedeem(id, h, p, password, now), Check(id), Activate(id)])
         == d.(committed := Step(d.committed, Redeem(h, p, password, now)).0)
  {
    var acts := [BeginRedeem(id, h, p, password, now), Check(id), Activate(id)];
    assert acts[..2] == [acts[0], acts[1]];
    Two(d, acts[0], acts[1]);
    var b := RedeemBegins(d, id, h, p, password, now).0;
    if b != d {
      var user := d.committed.tokens[h].user;
      StartThenEnd(d, id, Claimed(h, user, password, now));
      StartThenEnd(d, id, Passed(h, user, password, now));
    }
  }

  // And it is answered as there, by the statement that ends it.
  lemma SerialRedeemAnswers(d: Database, id: nat, h: nat, p: Purpose, password: string, now: int)
    requires id !in d.running && !Locked(d, h)
    ensures
      var acts := [BeginRedeem(id, h, p, password, now), Check(id), Activate(id)];
      exists i: nat :: i < 3
        && ReplyTo(d, acts, i) == Ended(Step(d.committed, Redeem(h, p, password, now)).1)
        && forall j :: 0 <= j < i ==> ReplyTo(d, acts, j) == Running
  {
    var acts := [BeginRedeem(id, h, p, password, now), Check(id), Activate(id)];
    assert acts[..0] == [] && acts[..1] == [acts[0]] && acts[..2] == [acts[0], acts[1]];
    Two(d, acts[0], acts[1]);
    var r := Step(d.committed, Redeem(h, p, password, now)).1;
    var b := RedeemBegins(d, id, h, p, password, now);
    if b.1.Ended? {
      assert ReplyTo(d, acts, 0) == Ended(r);
    } else if Checks(b.0, id).1.Ended? {
      assert ReplyTo(d, acts, 1) == Ended(r);
    } else {
      assert ReplyTo(d, acts, 2) == Ended(r);
    }
  }

  function Retirals(id: nat, order: seq<nat>): seq<Action> {
    seq(|order|, i requires 0 <= i < |order| => Retire(id, order[i]))
  }

  function Members(order: seq<nat>): set<nat> { set h | h in order }

  // A mint once its UPDATE has come to all of `done`.
  function Through(t: Transaction, db: Accounts, done: set<nat>): Transaction
    requires t.Minting?
  {
    t.(left := t.left - done,
       retired := t.retired + set h | h in t.left && h in done && h in db.tokens && Live(db.tokens[h], t.now))
  }

  lemma {:induction false} RetireAll(d: Database, id: nat, order: seq<nat>)
    requires id in d.running && d.running[id].Minting?
    requires forall h :: h in d.running[id].left ==> !Locked(d, h)
    ensures RunAll(d, Retirals(id, order)) == Start(d, id, Through(d.running[id], d.committed, Members(order)))
  {
    var t := d.running[id];
    if order == [] {
      assert Retirals(id, order) == [];
      assert Members(order) == {};
      assert Through(t, d.committed, {}) == t;
      assert d.running[id := t] == d.running;
    } else {
      var front, h := order[..|order|-1], order[|order|-1];
      RetireAll(d, id, front);
      assert Retirals(id, order)[..|order|-1] == Retirals(id, front);
      RetireOneMore(d, id, Members(front), h);
      assert Members(order) == Members(front) + {h};
    }
  }

  lemma RetireOneMore(d: Database, id: nat, done: set<nat>, h: nat)
    requires id in d.running && d.running[id].Minting?
    requires forall g :: g in d.running[id].left ==> !Locked(d, g)
    ensures Retires(Start(d, id, Through(d.running[id], d.committed, done)), id, h).0
         == Start(d, id, Through(d.running[id], d.committed, done + {h}))
  {
    var t := d.running[id];
    var u := Through(t, d.committed, done);
    var e := Start(d, id, u);
    if h in u.left {
      if other :| other in e.running && Holds(e.running[other], h) {
        assert other in d.running && Holds(d.running[other], h);
      }
      assert CameTo(u, d.committed, h) == Through(t, d.committed, done + {h});
    } else {
      assert Through(t, d.committed, done + {h}) == u;
    }
  }

  // So is a mint, in whatever order its UPDATE comes to the rows.
  lemma SerialMint(d: Database, id: nat, user: nat, p: Purpose, h: nat, now: int, order: seq<nat>)
    requires id !in d.running && !AwaitsInsert(d, h)
    requires forall g :: g in LiveRivals(d.committed, user, p, now) ==> g in order && !Locked(d, g)
    ensures RunAll(d, [BeginMint(id, user, p, h, now)] + Retirals(id, order) + [CommitMint(id)])
         == d.(committed := Step(d.committed, Mint(user, p, h, now)).0)
  {
    var begin, commit := BeginMint(id, user, p, h, now), CommitMint(id);
    var b := Act(d, begin).0;
    RunJoin(d, [begin] + Retirals(id, order), [commit]);
    RunJoin(d, [begin], Retirals(id, order));
    One(d, begin);
    One(RunAll(b, Retirals(id, order)), commit);
    if user in d.committed.users && h !in d.committed.tokens {
      MintAlone(d, id, user, p, h, now, order);
    } else {
      NothingToRetire(d, id, order);
    }
  }

  // A mint starts for an account that exists and a token that does not; one that starts and
  // gets to commit is done.
  lemma MintAnswers(d: Database, id: nat, user: nat, p: Purpose, h: nat, now: int)
    requires id !in d.running && !AwaitsInsert(d, h)
    ensures
      var r := Act(d, BeginMint(id, user, p, h, now)).1;
      && (r == Running <==> user in d.committed.users && h !in d.committed.tokens)
      && (r != Running ==> r == Ended(Refused(DatabaseError)))
    ensures forall e: Database :: id in e.running && e.running[id].Minting? && e.running[id].left == {} ==>
      Act(e, CommitMint(id)).1 == Ended(Done)
  {
  }

  lemma One(d: Database, a: Action)
    ensures RunAll(d, [a]) == Act(d, a).0
  {
    assert [a][..0] == [];
  }

  lemma {:induction false} NothingToRetire(d: Database, id: nat, order: seq<nat>)
    requires id !in d.running
    ensures RunAll(d, Retirals(id, order)) == d
  {
    if order != [] {
      var front := order[..|order|-1];
      NothingToRetire(d, id, front);
      assert Retirals(id, order)[..|order|-1] == Retirals(id, front);
    }
  }

  lemma MintAlone(d: Database, id: nat, user: nat, p: Purpose, h: nat, now: int, order: seq<nat>)
    requires id !in d.running && user in d.committed.users && h !in d.committed.tokens
    requires forall g :: g in LiveRivals(d.committed, user, p, now) ==> g in order && !Locked(d, g)
    ensures
      var rivals := LiveRivals(d.committed, user, p, now);
      var b := Start(d, id, Minting(user, p, h, now, rivals, {}));
      MintCommits(RunAll(b, Retirals(id, order)), id).0 == d.(committed := Step(d.committed, Mint(user, p, h, now)).0)
  {
    var rivals := LiveRivals(d.committed, user, p, now);
    var t := Minting(user, p, h, now, rivals, {});
    var b := Start(d, id, t);
    forall g | g in rivals
      ensures !Locked(b, g)
    {
      if other :| other in b.running && Holds(b.running[other], g) { assert other in d.running; }
    }
    RetireAll(b, id, order);
    var u := t.(left := {}, retired := rivals);
    assert Through(t, d.committed, Members(order)) == u;
    assert Start(b, id, u) == Start(d, id, u);
    StartThenEnd(d, id, u);
    assert UsedUp(d.committed.tokens, rivals, now) == Invalidate(d.committed.tokens, user, p, now);
  }

  // ---- What holds however they overlap ----

  predicate Unused(db: Accounts, h: nat) { h in db.tokens && db.tokens[h].usedAt.None? }

  predicate Backed(db: Accounts, t: Transaction) {
    if t.Minting? then t.hash !in db.tokens && t.left !! t.retired && forall h :: h in t.retired ==> Unused(db, h)
    else Unused(db, t.hash) && db.tokens[t.hash].user == t.user
  }

  ghost predicate Apart(t: Transaction, u: Transaction) {
    && (forall h :: Holds(t, h) ==> !Holds(u, h))
    && (t.Minting? && u.Minting? ==> t.hash != u.hash)
  }

  // A token some transaction holds is unused, and no other transaction's.
  ghost predicate Sound(d: Database) {
    && (forall id :: id in d.running ==> Backed(d.committed, d.running[id]))
    && (forall id, other :: id in d.running && other in d.running && id != other ==>
          Apart(d.running[id], d.running[other]))
  }

  // Tokens keep their owner, purpose and expiry, and stay used; accounts stay, and stay
  // active, though not with the same password.
  predicate Keeps(a: Accounts, b: Accounts) {
    && (forall h :: h in a.tokens ==> h in b.tokens && b.tokens[h].(usedAt := a.tokens[h].usedAt) == a.tokens[h]
                                      && (a.tokens[h].usedAt.Some? ==> b.tokens[h] == a.tokens[h]))
    && (forall u :: u in a.users ==> u in b.users && (a.users[u].verifiedAt.Some? ==> b.users[u].verifiedAt.Some?))
  }

  lemma StartIsSound(d: Database, id: nat, t: Transaction)
    requires Sound(d) && Backed(d.committed, t)
    requires forall other :: other in d.running && other != id ==> Apart(t, d.running[other])
    ensures Sound(Start(d, id, t))
  {
    forall other | other in d.running && other != id
      ensures Apart(d.running[other], t)
    {
      assert Apart(t, d.running[other]);
    }
  }

  // Committing what only this transaction holds disturbs no other.
  lemma EndIsSound(d: Database, id: nat, db: Accounts)
    requires Sound(d) && id in d.running
    requires forall other :: other in d.running && other != id ==> Backed(db, d.running[other])
    ensures Sound(End(d, id).(committed := db))
  {
  }

  lemma ActivateKeeps(d: Database, id: nat)
    requires Sound(d) && id in d.running && d.running[id].Passed?
    ensures Sound(Activates(d, id).0) && Keeps(d.committed, Activates(d, id).0.committed)
    ensures VerifiedHasPassword(d.committed) ==> VerifiedHasPassword(Activates(d, id).0.committed)
  {
    var t := d.running[id];
    assert Backed(d.committed, t);
    var db := AfterActivation(d.committed, t);
    forall other | other in d.running && other != id
      ensures Backed(db, d.running[other])
    {
      assert Backed(d.committed, d.running[other]) && Apart(t, d.running[other]) && Holds(t, t.hash);
    }
    EndIsSound(d, id, db);
  }

  lemma MintCommitKeeps(d: Database, id: nat)
    requires Sound(d) && id in d.running && d.running[id].Minting?
    ensures Sound(MintCommits(d, id).0) && Keeps(d.committed, MintCommits(d, id).0.committed)
    ensures VerifiedHasPassword(d.committed) ==> VerifiedHasPassword(MintCommits(d, id).0.committed)
  {
    var t := d.running[id];
    assert Backed(d.committed, t);
    var db := Minted(d.committed, t);
    forall other | other in d.running && other != id
      ensures Backed(db, d.running[other])
    {
      var u := d.running[other];
      assert Backed(d.committed, u) && Apart(t, u);
      forall h | Holds(u, h)
        ensures Unused(db, h) && db.tokens[h] == d.committed.tokens[h]
      {
        assert !Holds(t, h) && Unused(d.committed, h);
      }
      if Redeeming(u) { assert Holds(u, u.hash); }
      if u.Minting? { assert forall h :: h in u.retired ==> Holds(u, h); }
    }
    EndIsSound(d, id, db);
  }

  lemma CheckKeeps(d: Database, id: nat)
    requires Sound(d) && id in d.running && d.running[id].Claimed?
    ensures Sound(Checks(d, id).0) && Checks(d, id).0.committed == d.committed
  {
    var t := d.running[id];
    assert Backed(d.committed, t);
    EndIsSound(d, id, d.committed);
    var u := Passed(t.hash, t.user, t.password, t.now);
    forall other | other in d.running && other != id
      ensures Apart(u, d.running[other])
    {
      assert Apart(t, d.running[other]);
    }
    StartIsSound(d, id, u);
  }

  lemma RetireKeeps(d: Database, id: nat, h: nat)
    requires Sound(d)
    ensures Sound(Retires(d, id, h).0) && Retires(d, id, h).0.committed == d.committed
  {
    if Retires(d, id, h).1.Running? {
      var t := d.running[id];
      assert Backed(d.committed, t);
      var u := CameTo(t, d.committed, h);
      forall other | other in d.running && other != id
        ensures Apart(u, d.running[other])
      {
        assert Apart(t, d.running[other]) && !Holds(d.running[other], h);
        assert forall g :: Holds(u, g) ==> Holds(t, g) || g == h;
      }
      StartIsSound(d, id, u);
    }
  }

  lemma BeginRedeemKeeps(d: Database, id: nat, h: nat, p: Purpose, password: string, now: int)
    requires Sound(d)
    ensures var e := RedeemBegins(d, id, h, p, password, now).0; Sound(e) && e.committed == d.committed
  {
    if RedeemBegins(d, id, h, p, password, now).1.Running? {
      StartIsSound(d, id, Claimed(h, d.committed.tokens[h].user, password, now));
    }
  }

  lemma BeginMintKeeps(d: Database, id: nat, user: nat, p: Purpose, h: nat, now: int)
    requires Sound(d)
    ensures var e := MintBegins(d, id, user, p, h, now).0; Sound(e) && e.committed == d.committed
  {
    if MintBegins(d, id, user, p, h, now).1.Running? {
      StartIsSound(d, id, Minting(user, p, h, now, LiveRivals(d.committed, user, p, now), {}));
    }
  }

  lemma ActKeeps(d: Database, a: Action)
    requires Sound(d)
    ensures Sound(Act(d, a).0) && Keeps(d.committed, Act(d, a).0.committed)
    ensures VerifiedHasPassword(d.committed) ==> VerifiedHasPassword(Act(d, a).0.committed)
  {
    match a
    case BeginRedeem(id, h, p, password, now) => BeginRedeemKeeps(d, id, h, p, password, now);
    case Check(id) =>
      if id in d.running && d.running[id].Claimed? { CheckKeeps(d, id); }
    case Activate(id) =>
      if id in d.running && d.running[id].Passed? { ActivateKeeps(d, id); }
    case Abort(id) =>
      if id in d.running { EndIsSound(d, id, d.committed); }
    case BeginMint(id, user, p, h, now) => BeginMintKeeps(d, id, user, p, h, now);
    case Retire(id, h) => RetireKeeps(d, id, h);
    case CommitMint(id) =>
      if id in d.running && d.running[id].Minting? { MintCommitKeeps(d, id); }
    case CommitContact(user, now) => SerialKeeps(d, CreateContact(user, now));
    case CommitReset(user, password, now) => SerialKeeps(d, ResetPassword(user, password, now));
    case CommitSeed(user, password, now) => SerialKeeps(d, SeedAdmin(user, password, now));
  }

  lemma SerialKeeps(d: Database, op: Op)
    requires Sound(d) && (op.CreateContact? || op.ResetPassword? || op.SeedAdmin?)
    ensures var r := d.(committed := Step(d.committed, op).0);
      && Sound(r) && Keeps(d.committed, r.committed)
      && (VerifiedHasPassword(d.committed) ==> VerifiedHasPassword(r.committed))
  {
    var db := Step(d.committed, op).0;
    forall id | id in d.running
      ensures Backed(db, d.running[id])
    {
      assert Backed(d.committed, d.running[id]);
    }
  }

  lemma {:induction false} RunKeepsSound(d: Database, acts: seq<Action>)
    requires Sound(d)
    ensures Sound(RunAll(d, acts)) && Keeps(d.committed, RunAll(d, acts).committed)
    ensures VerifiedHasPassword(d.committed) ==> VerifiedHasPassword(RunAll(d, acts).committed)
  {
    if acts != [] {
      RunKeepsSound(d, acts[..|acts|-1]);
      ActKeeps(RunAll(d, acts[..|acts|-1]), acts[|acts|-1]);
    }
  }

  lemma {:induction false} RunJoin(d: Database, x: seq<Action>, y: seq<Action>)
    ensures RunAll(d, x + y) == RunAll(RunAll(d, x), y)
  {
    if y == [] {
      assert x + y == x;
    } else {
      assert (x + y)[..|x + y|-1] == x + y[..|y|-1];
      RunJoin(d, x, y[..|y|-1]);
    }
  }

  // What action i left committed is still there when action j comes.
  lemma KeepsFrom(d: Database, acts: seq<Action>, i: nat, j: nat)
    requires Sound(d) && i < j < |acts|
    ensures Sound(RunAll(d, acts[..i])) && Sound(RunAll(d, acts[..j]))
    ensures Keeps(Act(RunAll(d, acts[..i]), acts[i]).0.committed, RunAll(d, acts[..j]).committed)
  {
    assert acts[..i+1][..i] == acts[..i] && acts[..i+1] + acts[i+1..j] == acts[..j];
    RunKeepsSound(d, acts[..i]);
    RunKeepsSound(d, acts[..i+1]);
    RunJoin(d, acts[..i+1], acts[i+1..j]);
    RunKeepsSound(RunAll(d, acts[..i+1]), acts[i+1..j]);
    RunKeepsSound(d, acts[..j]);
  }

  // The token action i redeems, if it is an activation that goes through.
  function RedeemedBy(d: Database, acts: seq<Action>, i: nat): Option<nat>
    requires i < |acts|
  {
    if acts[i].Activate? && ReplyTo(d, acts, i).Ended?
    then Some(RunAll(d, acts[..i]).running[acts[i].id].hash) else None
  }

  // However transactions overlap, no token redeems twice.
  lemma TokenRedeemsOnce(d: Database, acts: seq<Action>, i: nat, j: nat)
    requires Sound(d) && i < j < |acts| && RedeemedBy(d, acts, i).Some?
    ensures RedeemedBy(d, acts, j) != RedeemedBy(d, acts, i)
  {
    KeepsFrom(d, acts, i, j);
    var before := RunAll(d, acts[..j]);
    if RedeemedBy(d, acts, j).Some? {
      assert Backed(before.committed, before.running[acts[j].id]);
    }
  }

  lemma RunStep(d: Database, acts: seq<Action>, i: nat)
    requires i < |acts|
    ensures RunAll(d, acts[..i+1]) == Act(RunAll(d, acts[..i]), acts[i]).0
  {
    assert acts[..i+1][..i] == acts[..i];
  }
}
