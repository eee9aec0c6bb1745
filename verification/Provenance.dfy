/** Where users come from: a user a worker created is stored, for good, with
    exactly the payload that was accepted for its job, and no two users share an
    address, whatever the interleaving and even if the channel redelivers. */
module Provenance {
  import opened Runs
  import opened Jobs
  import opened AsyncRuntime
  import AtMostOnce
  import Queue
  import WorkerPool
  import Users

  predicate ItemsKnown(s: Sys) {
    && (forall i :: 0 <= i < |s.queue.buf| ==> s.queue.buf[i] in s.queue.accepted)
    && (forall w :: w in s.tasks && HasItem(s.tasks[w]) ==> s.tasks[w].item in s.queue.accepted)
  }

  function UserFrom(user: int, item: Queue.Item): Users.User {
    Users.User(user, item.payload.name, item.payload.age, item.payload.email, 1)
  }

  /** The stored user is the payload of the item accepted for its job. */
  predicate MadeFrom(s: Sys, user: int, k: nat)
    requires user in s.past.made && k < |s.queue.accepted|
  {
    var item := s.queue.accepted[k];
    item.job == s.past.made[user] && user in s.users.users && s.users.users[user] == UserFrom(user, item)
  }

  predicate UserKnown(s: Sys, user: int)
    requires user in s.past.made
  {
    exists k :: 0 <= k < |s.queue.accepted| && MadeFrom(s, user, k)
  }

  predicate Books(s: Sys) {
    && Users.UsersOk(s.users)
    && ItemsKnown(s)
    && forall user :: user in s.past.made ==> UserKnown(s, user)
  }

  /** Accepted items and stored users only accumulate. */
  ghost predicate Grows(s: Sys, s': Sys) {
    && s.queue.accepted <= s'.queue.accepted
    && (forall user :: user in s.users.users ==> user in s'.users.users && s'.users.users[user] == s.users.users[user])
  }

  lemma StillKnown(s: Sys, s': Sys, user: int)
    requires Grows(s, s') && user in s.past.made && UserKnown(s, user)
    requires user in s'.past.made && s'.past.made[user] == s.past.made[user]
    ensures UserKnown(s', user)
  {
    var k :| 0 <= k < |s.queue.accepted| && MadeFrom(s, user, k);
    assert s'.queue.accepted[k] == s.queue.accepted[k];
    assert MadeFrom(s', user, k);
  }

  lemma BooksFrame(s: Sys, s': Sys)
    requires Books(s) && Grows(s, s') && s'.past.made == s.past.made && Users.UsersOk(s'.users) && ItemsKnown(s')
    ensures Books(s')
  {
    forall user | user in s'.past.made ensures UserKnown(s', user) {
      StillKnown(s, s', user);
    }
  }

  // ----- each step

  lemma HandleKeeps(s: Sys, t: nat, ok: bool)
    requires Books(s) && CanHandle(s, t, ok)
    ensures Books(DoHandle(s, t, ok))
  {
    var s' := DoHandle(s, t, ok);
    HandleQueue(s, t, ok);
    assert s'.past.made == s.past.made;
    BooksFrame(s, s');
  }

  lemma HandleQueue(s: Sys, t: nat, ok: bool)
    requires CanHandle(s, t, ok) && ItemsKnown(s)
    ensures var s' := DoHandle(s, t, ok);
      && ItemsKnown(s') && s.queue.accepted <= s'.queue.accepted && s'.users == s.users
  {
  }

  lemma TakeKeeps(s: Sys, w: nat)
    requires Books(s) && CanTake(s, w)
    ensures Books(DoTake(s, w))
  {
    BooksFrame(s, DoTake(s, w));
  }

  /** A turn that saves records the user it saved. */
  lemma TurnSaves(task: Task, job: Option<Job>, users: Users.UserStore, canceled: bool)
    requires HasItem(task) && Users.UsersOk(users)
    ensures
      var turn := TurnOf(task, job, users, canceled);
      && (HasItem(turn.next) ==> turn.next.item == task.item)
      && (turn.saves ==>
            turn.next == Created(task.item, users.nextID) && !Users.EmailTaken(users, task.item.payload.email))
  {
  }

  lemma SavedUser(users: Users.UserStore, item: Queue.Item)
    requires Users.UsersOk(users) && !Users.EmailTaken(users, item.payload.email)
    ensures
      var after := Users.SaveUser(users, Draft(item)).0;
      && users.nextID !in users.users && Users.UsersOk(after)
      && after.users == users.users[users.nextID := UserFrom(users.nextID, item)]
  {
    Users.SaveKeepsOk(users, Draft(item));
  }

  lemma SaveKeeps(s: Sys, s': Sys, item: Queue.Item)
    requires Books(s) && s'.queue == s.queue && ItemsKnown(s') && Users.UsersOk(s'.users)
    requires item in s.queue.accepted && s.users.nextID !in s.users.users
    requires s'.past.made == s.past.made[s.users.nextID := item.job]
    requires s'.users.users == s.users.users[s.users.nextID := UserFrom(s.users.nextID, item)]
    ensures Books(s')
  {
    forall user | user in s'.past.made ensures UserKnown(s', user) {
      if user == s.users.nextID {
        var k :| 0 <= k < |s.queue.accepted| && s.queue.accepted[k] == item;
        assert MadeFrom(s', user, k);
      } else {
        StillKnown(s, s', user);
      }
    }
  }

  lemma AdvanceKeeps(s: Sys, w: nat)
    requires Books(s) && CanAdvance(s, w)
    ensures Books(DoAdvance(s, w))
  {
    var s', task, turn := DoAdvance(s, w), s.tasks[w], TurnAt(s, w);
    TurnSaves(task, Stored(s, task.item.job), s.users, s.pool.gens[s.pool.workers[w].gen].canceled);
    assert s'.queue == s.queue && ItemsKnown(s');
    if turn.saves {
      SavedUser(s.users, task.item);
      SaveKeeps(s, s', task.item);
    } else {
      BooksFrame(s, s');
    }
  }

  lemma PoolKeeps(s: Sys, a: WorkerPool.Act)
    requires Books(s) && CanPool(s, a)
    ensures Books(DoPool(s, a))
  {
    var s' := DoPool(s, a);
    assert forall w :: w in s'.tasks && HasItem(s'.tasks[w]) ==> w in s.tasks && s'.tasks[w] == s.tasks[w];
    BooksFrame(s, s');
  }

  lemma KeepsBooks(s: Sys, a: Act)
    requires Books(s) && Can(s, a)
    ensures Books(Do(s, a))
  {
    match a
    case Handle(t, ok) => HandleKeeps(s, t, ok);
    case Take(w) => TakeKeeps(s, w);
    case Advance(w) => AdvanceKeeps(s, w);
    case PoolAct(pact) => PoolKeeps(s, pact);
    case SyncCreate(user) =>
      Users.SaveKeepsOk(s.users, user);
      BooksFrame(s, Do(s, a));
    case _ => BooksFrame(s, Do(s, a));
  }

  lemma BooksInductive()
    ensures Inductive(FaultyStep, Books)
  {
    forall s, s' | Books(s) && FaultyStep(s, s') ensures Books(s') {
      if Step(s, s') {
        var a :| Can(s, a) && s' == Do(s, a);
        KeepsBooks(s, a);
      } else {
        BooksFrame(s, s');
      }
    }
  }

  /** Provenance over every run, redelivery included: the one item accepted for a
      job is what the user made for it consists of, and no two users share an
      address up to case. */
  lemma UsersComeFromTheirJobs(run: seq<Sys>, config: Config, i: nat)
    requires IsRun(FaultyStep, run) && run[0] == NewSys(config) && i < |run|
    ensures forall user :: user in run[i].past.made ==>
              var s := run[i];
              && UserKnown(s, user)
              && forall k :: 0 <= k < |s.queue.accepted| && s.queue.accepted[k].job == s.past.made[user] ==>
                  MadeFrom(s, user, k)
    ensures var users := run[i].users.users;
      forall u, v :: u in users && v in users && u != v ==>
        || |users[u].email| != |users[v].email|
        || exists k ::
             0 <= k < |users[u].email| && run[i].users.fold(users[u].email[k]) != run[i].users.fold(users[v].email[k])
  {
    BooksInductive();
    HoldsFrom(FaultyStep, Books, run, 0, i);
    SafeOverRuns(run, config, i);
    OnlyItem(run[i]);
    AddressesDiffer(run[i].users);
  }

  lemma AddressesDiffer(st: Users.UserStore)
    requires Users.UsersOk(st)
    ensures forall u, v :: u in st.users && v in st.users && u != v ==>
              || |st.users[u].email| != |st.users[v].email|
              || exists k ::
                   0 <= k < |st.users[u].email| && st.fold(st.users[u].email[k]) != st.fold(st.users[v].email[k])
  {
    forall u, v | u in st.users && v in st.users && u != v
      ensures || |st.users[u].email| != |st.users[v].email|
              || exists k ::
                   0 <= k < |st.users[u].email| && st.fold(st.users[u].email[k]) != st.fold(st.users[v].email[k])
    {
      Users.EqualFoldExact(st.fold, st.users[u].email, st.users[v].email);
    }
  }

  lemma SafeOverRuns(run: seq<Sys>, config: Config, i: nat)
    requires IsRun(FaultyStep, run) && run[0] == NewSys(config) && i < |run|
    ensures AtMostOnce.Safe(run[i])
  {
    AtMostOnce.SafeInductive();
    assert AtMostOnce.Safe(NewSys(config));
    HoldsFrom(FaultyStep, AtMostOnce.Safe, run, 0, i);
  }

  lemma OnlyItem(s: Sys)
    requires Books(s) && AtMostOnce.Identities(s)
    ensures forall user, k ::
              user in s.past.made && 0 <= k < |s.queue.accepted| && s.queue.accepted[k].job == s.past.made[user] ==>
              MadeFrom(s, user, k)
  {
    forall user, k | user in s.past.made && 0 <= k < |s.queue.accepted| && s.queue.accepted[k].job == s.past.made[user]
      ensures MadeFrom(s, user, k)
    {
      var m :| 0 <= m < |s.queue.accepted| && MadeFrom(s, user, m);
      assert k == m;
    }
  }
}
