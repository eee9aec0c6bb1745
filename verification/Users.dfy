/** The in-memory user repository (internal/store/userrepo/memory_user_repo.go)
    and CreateUser's check-then-save on top of it (internal/service/service.go). */
module Users {
  import opened Runs

  datatype User = User(id: int, name: string, age: int, email: string, version: int)

  /** `fold` sends each character to a representative of its case-folding orbit;
      the model holds for every such function, Unicode's among them. */
  datatype UserStore = UserStore(users: map<int, User>, nextID: int, fold: char -> char)

  function NoUsers(fold: char -> char): UserStore {
    UserStore(map[], 1, fold)
  }

  function Fold(fold: char -> char, s: string): string {
    seq(|s|, i requires 0 <= i < |s| => fold(s[i]))
  }

  /** strings.EqualFold. */
  predicate EqualFold(fold: char -> char, s: string, t: string) {
    Fold(fold, s) == Fold(fold, t)
  }

  predicate EmailTaken(st: UserStore, email: string) {
    exists id :: id in st.users && EqualFold(st.fold, st.users[id].email, email)
  }

  datatype SaveReply = SavedAs(id: int) | EmailConflict | AlreadyExists

  /** The user as stored: a fresh identifier for ID zero, version at least one. */
  function Stored(st: UserStore, user: User): User {
    user.(id := if user.id == 0 then st.nextID else user.id,
          version := if user.version == 0 then 1 else user.version)
  }

  function SaveUser(st: UserStore, user: User): (UserStore, SaveReply) {
    if EmailTaken(st, user.email) then (st, EmailConflict)
    else if user.id != 0 && user.id in st.users then (st, AlreadyExists)
    else
      var stored := Stored(st, user);
      (st.(users := st.users[stored.id := stored], nextID := if user.id == 0 then st.nextID + 1 else st.nextID),
       SavedAs(stored.id))
  }

  /** Identifiers were issued here, and no two users share an address up to case. */
  predicate UsersOk(st: UserStore) {
    && 1 <= st.nextID
    && (forall id :: id in st.users ==> 1 <= id < st.nextID && st.users[id].id == id)
    && (forall i, j :: i in st.users && j in st.users && EqualFold(st.fold, st.users[i].email, st.users[j].email) ==>
          i == j)
  }

  /** A save never touches an existing user and never takes an identifier in use.
      It keeps identifiers issued here, and so the next one free, exactly unless
      it stores a user under an explicit identifier that was not issued. */
  lemma SaveKeepsOk(st: UserStore, user: User)
    requires UsersOk(st)
    ensures
      var (after, reply) := SaveUser(st, user);
      && (UsersOk(after) <==> !reply.SavedAs? || user.id == 0 || 1 <= user.id < st.nextID)
      && (reply.SavedAs? ==> reply.id !in st.users && reply.id == if user.id == 0 then st.nextID else user.id)
      && (reply.SavedAs? ==>
            && reply.id in after.users && after.users.Keys == st.users.Keys + {reply.id}
            && after.users[reply.id] == user.(id := reply.id, version := after.users[reply.id].version)
            && after.users[reply.id].version == if user.version == 0 then 1 else user.version)
      && (reply == AlreadyExists ==> user.id in st.users && user.id != 0)
      && (reply == EmailConflict <==> EmailTaken(st, user.email))
      && (!reply.SavedAs? ==> after == st)
      && (forall id :: id in st.users ==> id in after.users && after.users[id] == st.users[id])
      && after.fold == st.fold
  {
    var (after, reply) := SaveUser(st, user);
    if reply.SavedAs? {
      assert reply.id in after.users;
    }
  }

  /** The exception is real: an identifier that was taken without being issued is
      issued later, and the user who had it is overwritten. */
  lemma ExplicitIdIsIssuedAgain(fold: char -> char)
    ensures
      var (st, first) := SaveUser(NoUsers(fold), User(1, "ann", 30, "a", 0));
      var (st', second) := SaveUser(st, User(0, "bob", 40, "bb", 0));
      && first == SavedAs(1) && second == SavedAs(1)
      && 1 in st.users && 1 in st'.users && st.users[1].name == "ann" && st'.users[1].name == "bob"
  {
    assert |Fold(fold, "a")| == 1 && |Fold(fold, "bb")| == 2;
  }

  function SaveAll(st: UserStore, others: seq<User>): UserStore
    decreases others
  {
    if others == [] then st else SaveAll(SaveUser(st, others[0]).0, others[1..])
  }

  /** `CreateUser`, with the saves in `between` of other goroutines after its check. */
  function CreateUser(st: UserStore, name: string, age: int, email: string, between: seq<User>): (UserStore, SaveReply)
  {
    if EmailTaken(st, email) then (st, EmailConflict)
    else SaveUser(SaveAll(st, between), User(0, name, age, email, 0))
  }

  lemma {:induction false} SaveAllKeepsOk(st: UserStore, others: seq<User>)
    requires UsersOk(st) && forall i :: 0 <= i < |others| ==> others[i].id == 0
    ensures UsersOk(SaveAll(st, others))
    ensures forall id :: id in st.users ==>
              id in SaveAll(st, others).users && SaveAll(st, others).users[id] == st.users[id]
    ensures st.nextID <= SaveAll(st, others).nextID && SaveAll(st, others).fold == st.fold
    decreases others
  {
    if others != [] {
      SaveKeepsOk(st, others[0]);
      SaveAllKeepsOk(SaveUser(st, others[0]).0, others[1..]);
    }
  }

  /** Whatever the other goroutines save in the gap, the call never creates a
      second user with the address and succeeds exactly when the address is free
      at the save; no existing user is touched. */
  lemma CreateUserExact(st: UserStore, name: string, age: int, email: string, between: seq<User>)
    requires UsersOk(st) && forall i :: 0 <= i < |between| ==> between[i].id == 0
    ensures
      var found := SaveAll(st, between);
      var (after, reply) := CreateUser(st, name, age, email, between);
      && UsersOk(after)
      && (reply.SavedAs? <==> !EmailTaken(found, email))
      && (reply.SavedAs? ==>
            && reply.id !in found.users && after.nextID == found.nextID + 1
            && after.users == found.users[reply.id := User(reply.id, name, age, email, 1)])
      && (!reply.SavedAs? ==> after == if EmailTaken(st, email) then st else found)
  {
    SaveAllKeepsOk(st, between);
    var found := SaveAll(st, between);
    SaveKeepsOk(found, User(0, name, age, email, 0));
    if EmailTaken(st, email) {
      var id :| id in st.users && EqualFold(st.fold, st.users[id].email, email);
      assert id in found.users && EqualFold(found.fold, found.users[id].email, email);
    }
  }

  /** Two addresses are the same up to case exactly if they agree character by
      character after folding. */
  lemma EqualFoldExact(fold: char -> char, s: string, t: string)
    ensures EqualFold(fold, s, t) <==> |s| == |t| && forall i :: 0 <= i < |s| ==> fold(s[i]) == fold(t[i])
  {
    var x, y := Fold(fold, s), Fold(fold, t);
    assert |x| == |s| && |y| == |t|;
    assert forall i :: 0 <= i < |s| ==> x[i] == fold(s[i]);
    assert forall i :: 0 <= i < |t| ==> y[i] == fold(t[i]);
  }

  /** An undisturbed CreateUser refuses, and then changes nothing, exactly if some
      user has the address character by character after folding; otherwise it
      stores the user under the next identifier. */
  lemma CreateUserRefuses(st: UserStore, name: string, age: int, email: string)
    ensures
      var refused :=
        exists id ::
          && id in st.users && |st.users[id].email| == |email|
          && forall i :: 0 <= i < |email| ==> st.fold(st.users[id].email[i]) == st.fold(email[i]);
      CreateUser(st, name, age, email, []) ==
        if refused then (st, EmailConflict)
        else
          (st.(users := st.users[st.nextID := User(st.nextID, name, age, email, 1)], nextID := st.nextID + 1),
           SavedAs(st.nextID))
  {
    assert SaveAll(st, []) == st;
    if EmailTaken(st, email) {
      var id :| id in st.users && EqualFold(st.fold, st.users[id].email, email);
      EqualFoldExact(st.fold, st.users[id].email, email);
    } else {
      forall id | id in st.users && |st.users[id].email| == |email|
        ensures !forall i :: 0 <= i < |email| ==> st.fold(st.users[id].email[i]) == st.fold(email[i])
      {
        EqualFoldExact(st.fold, st.users[id].email, email);
      }
    }
  }

  class MemoryUserRepository {
    const fold: char -> char
    var users: map<int, User>
    var nextID: int

    ghost function State(): UserStore reads this {
      UserStore(users, nextID, fold)
    }

    constructor (fold: char -> char)
      ensures State() == NoUsers(fold)
    {
      this.fold := fold;
      users, nextID := map[], 1;
    }

    method ExistsByEmail(email: string) returns (taken: bool)
      ensures taken == EmailTaken(State(), email)
      ensures taken <==>
                exists id ::
                  && id in users && |users[id].email| == |email|
                  && forall i :: 0 <= i < |email| ==> fold(users[id].email[i]) == fold(email[i])
    {
      forall id | id in users
        ensures EqualFold(fold, users[id].email, email)
                <==> && |users[id].email| == |email|
                     && forall i :: 0 <= i < |email| ==> fold(users[id].email[i]) == fold(email[i])
      {
        EqualFoldExact(fold, users[id].email, email);
      }
      var todo: set<int> := users.Keys;
      while todo != {}
        invariant todo <= users.Keys
        invariant forall id :: id in users && id !in todo ==> !EqualFold(fold, users[id].email, email)
        decreases todo
      {
        HasMember(todo);
        var id: int :| id in todo;
        if EqualFold(fold, users[id].email, email) {
          return true;
        }
        todo := todo - {id};
      }
      return false;
    }

    method Save(user: User) returns (reply: SaveReply)
      modifies this
      ensures (State(), reply) == SaveUser(old(State()), user)
    {
      var taken := ExistsByEmail(user.email);
      if taken {
        return EmailConflict;
      }
      var stored := user;
      if stored.id == 0 {
        stored := stored.(id := nextID);
        nextID := nextID + 1;
      } else if stored.id in users {
        return AlreadyExists;
      }
      if stored.version == 0 {
        stored := stored.(version := 1);
      }
      users := users[stored.id := stored];
      return SavedAs(stored.id);
    }
  }
}
