/** The users table: lookups that return the first matching row, the
    partial UPDATE whose SET clause lists only the fields that were given,
    and the delete that reports whether a row went. */
module UserStore {
  import opened Common

  /** A row of `users`; `provider` is 'kakao' or 'naver'. */
  datatype User = User(
    id: int,
    email: string,
    name: string,
    phone: Option<string>,
    profileImage: Option<string>,
    provider: string,
    providerId: string,
    createdAt: int,
    updatedAt: int)

  datatype CreateUserData = CreateUserData(
    email: string,
    name: string,
    phone: Option<string>,
    profileImage: Option<string>,
    provider: string,
    providerId: string)

  /** None is a field left undefined. */
  datatype UpdateUserData = UpdateUserData(name: Option<string>, phone: Option<string>)

  // ---------------------------------------------------------------------------
  // The UPDATE statement

  datatype UserColumn = NameColumn | PhoneColumn

  /** `column = $slot` in the SET clause. */
  datatype UserAssignment = UserAssignment(column: UserColumn, slot: nat)

  /** `UPDATE users SET <assignments> WHERE id = $<idSlot>` with its
      parameter list. */
  datatype UserUpdateStatement = UserUpdateStatement(assignments: seq<UserAssignment>, values: seq<SqlValue>, idSlot: nat)

  /** The value given for a column. */
  function Given(data: UpdateUserData, column: UserColumn): Option<string>
  {
    match column
    case NameColumn => data.name
    case PhoneColumn => data.phone
  }

  /** The statement `update` sends, or None when no field is defined and no
      UPDATE is issued; name comes before phone. */
  function UserUpdateOf(id: int, data: UpdateUserData): Option<UserUpdateStatement>
  {
    if data.name.Some? && data.phone.Some? then
      Some(UserUpdateStatement([UserAssignment(NameColumn, 1), UserAssignment(PhoneColumn, 2)],
        [Text(data.name.value), Text(data.phone.value), Int(id)], 3))
    else if data.name.Some? then
      Some(UserUpdateStatement([UserAssignment(NameColumn, 1)], [Text(data.name.value), Int(id)], 2))
    else if data.phone.Some? then
      Some(UserUpdateStatement([UserAssignment(PhoneColumn, 1)], [Text(data.phone.value), Int(id)], 2))
    else None
  }

  /** The SET builder of `update`: one `column = $n` per defined field with
      n counting up from 1, and the id bound last. */
  method BuildUserUpdate(id: int, data: UpdateUserData) returns (st: Option<UserUpdateStatement>)
    ensures st == UserUpdateOf(id, data)
  {
    var fields: seq<UserAssignment> := [];
    var values: seq<SqlValue> := [];
    var paramCount := 1;
    if data.name.Some? {
      fields := fields + [UserAssignment(NameColumn, paramCount)];
      values := values + [Text(data.name.value)];
      paramCount := paramCount + 1;
    }
    assert fields == if data.name.Some? then [UserAssignment(NameColumn, 1)] else [];
    assert values == if data.name.Some? then [Text(data.name.value)] else [];
    if data.phone.Some? {
      fields := fields + [UserAssignment(PhoneColumn, paramCount)];
      values := values + [Text(data.phone.value)];
      paramCount := paramCount + 1;
    }
    if |fields| == 0 {
      return None;
    }
    values := values + [Int(id)];
    st := Some(UserUpdateStatement(fields, values, paramCount));
    ghost var expected := UserUpdateOf(id, data);
    assert expected.Some?;
    assert expected.value.assignments == fields;
    assert expected.value.values == values;
    assert expected.value.idSlot == paramCount;
  }

  /** Every placeholder is bound: the k-th assignment names the k-th
      defined column and its slot holds that column's value, the id sits
      in the last slot, and nothing else is bound. */
  lemma UserUpdateNumbering(id: int, data: UpdateUserData)
    ensures UserUpdateOf(id, data).None? <==> data.name.None? && data.phone.None?
    ensures UserUpdateOf(id, data).Some? ==>
      var st := UserUpdateOf(id, data).value;
      && |st.values| == st.idSlot == |st.assignments| + 1
      && st.values[st.idSlot - 1] == Int(id)
      && (forall k | 0 <= k < |st.assignments| ::
            && st.assignments[k].slot == k + 1
            && Given(data, st.assignments[k].column).Some?
            && st.values[st.assignments[k].slot - 1] == Text(Given(data, st.assignments[k].column).value))
      && (forall c :: Given(data, c).Some? <==> exists k | 0 <= k < |st.assignments| :: st.assignments[k].column == c)
  {
    if UserUpdateOf(id, data).Some? {
      var st := UserUpdateOf(id, data).value;
      forall c | Given(data, c).Some?
        ensures exists k | 0 <= k < |st.assignments| :: st.assignments[k].column == c
      {
        if c == PhoneColumn && data.name.Some? {
          assert st.assignments[1].column == c;
        } else {
          assert st.assignments[0].column == c;
        }
      }
    }
  }

  /** `WHERE id = $idSlot`. */
  predicate Targets(st: UserUpdateStatement, row: User)
  {
    0 < st.idSlot <= |st.values| && st.values[st.idSlot - 1] == Int(row.id)
  }

  /** One `column = $slot`, applied to a row. */
  function AssignUser(row: User, a: UserAssignment, values: seq<SqlValue>): User
  {
    if !(0 < a.slot <= |values|) || !values[a.slot - 1].Text? then row
    else
      match a.column
      case NameColumn => row.(name := values[a.slot - 1].text)
      case PhoneColumn => row.(phone := Some(values[a.slot - 1].text))
  }

  /** The SET clause, applied left to right. */
  function ExecuteUser(st: UserUpdateStatement, row: User, n: nat): User
    requires n <= |st.assignments|
  {
    if n == 0 then row else AssignUser(ExecuteUser(st, row, n - 1), st.assignments[n - 1], st.values)
  }

  /** What the update means for one row: the given fields replace the
      stored ones and the rest stay. */
  function Changed(row: User, data: UpdateUserData): (r: User)
    ensures r.id == row.id && r.email == row.email && r.provider == row.provider && r.providerId == row.providerId
    ensures r.name == data.name.GetOr(row.name)
    ensures r.phone == if data.phone.Some? then data.phone else row.phone
  {
    row.(name := if data.name.Some? then data.name.value else row.name,
         phone := if data.phone.Some? then data.phone else row.phone)
  }

  /** The statement hits exactly the row with that id and turns it into
      `Changed(row, data)`. */
  lemma UserUpdateMeaning(id: int, data: UpdateUserData, row: User)
    requires UserUpdateOf(id, data).Some?
    ensures Targets(UserUpdateOf(id, data).value, row) <==> row.id == id
    ensures ExecuteUser(UserUpdateOf(id, data).value, row, |UserUpdateOf(id, data).value.assignments|) == Changed(row, data)
  {
    UserUpdateNumbering(id, data);
    var st := UserUpdateOf(id, data).value;
    var n := |st.assignments|;
    if data.name.Some? && data.phone.Some? {
      assert st.assignments[0].column == NameColumn && st.assignments[1].column == PhoneColumn;
      assert ExecuteUser(st, row, 1) == row.(name := data.name.value);
    } else if data.name.Some? {
      assert n == 1 && st.assignments[0].column == NameColumn;
    } else {
      assert n == 1 && st.assignments[0].column == PhoneColumn;
    }
  }

  /** The table after an UPDATE: each targeted row rewritten in place. */
  function UpdateRows(users: seq<User>, st: UserUpdateStatement): (r: seq<User>)
    ensures |r| == |users|
  {
    if users == [] then []
    else
      var n := |users| - 1;
      var row := users[n];
      UpdateRows(users[..n], st) + [if Targets(st, row) then ExecuteUser(st, row, |st.assignments|) else row]
  }

  /** The rows `RETURNING *` gives back: the targeted rows after the SET. */
  function Returned(users: seq<User>, st: UserUpdateStatement): (r: seq<User>)
  {
    if users == [] then []
    else
      var n := |users| - 1;
      var row := users[n];
      Returned(users[..n], st) + (if Targets(st, row) then [ExecuteUser(st, row, |st.assignments|)] else [])
  }

  /** The table with the row `id` changed and every other row as it was. */
  function ChangedRows(users: seq<User>, id: int, data: UpdateUserData): (r: seq<User>)
    ensures |r| == |users|
    ensures forall i | 0 <= i < |users| :: r[i] == if users[i].id == id then Changed(users[i], data) else users[i]
  {
    seq(|users|, i requires 0 <= i < |users| => if users[i].id == id then Changed(users[i], data) else users[i])
  }

  lemma {:induction false} UpdateRowsMeaning(users: seq<User>, id: int, data: UpdateUserData)
    requires UserUpdateOf(id, data).Some?
    ensures UpdateRows(users, UserUpdateOf(id, data).value) == ChangedRows(users, id, data)
  {
    if users != [] {
      var n := |users| - 1;
      UpdateRowsMeaning(users[..n], id, data);
      UserUpdateMeaning(id, data, users[n]);
    }
  }

  /** RETURNING gives back the changed form of each row with that id. */
  lemma {:induction false} ReturnedMeaning(users: seq<User>, id: int, data: UpdateUserData)
    requires UserUpdateOf(id, data).Some?
    ensures var r := Returned(users, UserUpdateOf(id, data).value);
      && (r == [] <==> First(users, (u: User) => u.id == id).None?)
      && (r != [] ==> r[0] == Changed(First(users, (u: User) => u.id == id).value, data))
  {
    var st := UserUpdateOf(id, data).value;
    var hit := (u: User) => u.id == id;
    if users != [] {
      var n := |users| - 1;
      ReturnedMeaning(users[..n], id, data);
      UserUpdateMeaning(id, data, users[n]);
      FirstOfSnoc(users[..n], users[n], hit);
      assert users == users[..n] + [users[n]];
    }
  }

  /** The first match of a table with a row appended. */
  lemma {:induction false} FirstOfSnoc<T>(rows: seq<T>, x: T, keep: T -> bool)
    ensures First(rows + [x], keep) == if First(rows, keep).Some? then First(rows, keep) else if keep(x) then Some(x) else None
  {
    if rows != [] {
      FirstOfSnoc(rows[1..], x, keep);
      assert (rows + [x])[1..] == rows[1..] + [x];
    }
  }

  // ---------------------------------------------------------------------------
  // The table

  /** Ids are distinct and below the next id the sequence hands out. */
  predicate UsersConsistent(users: seq<User>, nextId: int)
  {
    && (forall i | 0 <= i < |users| :: users[i].id < nextId)
    && (forall i, j | 0 <= i < j < |users| :: users[i].id != users[j].id)
  }

  lemma ChangedRowsConsistent(users: seq<User>, nextId: int, id: int, data: UpdateUserData)
    requires UsersConsistent(users, nextId)
    ensures UsersConsistent(ChangedRows(users, id, data), nextId)
  {
  }

  lemma AppendConsistent(users: seq<User>, nextId: int, user: User)
    requires UsersConsistent(users, nextId) && user.id == nextId
    ensures UsersConsistent(users + [user], nextId + 1)
  {
  }

  /** Deleting rows keeps the remaining ids distinct. */
  lemma {:induction false} SelectConsistent(users: seq<User>, nextId: int, keep: User -> bool)
    requires UsersConsistent(users, nextId)
    ensures UsersConsistent(Select(users, keep), nextId)
  {
    if users != [] {
      var n := |users| - 1;
      var init := Select(users[..n], keep);
      SelectConsistent(users[..n], nextId, keep);
      assert Select(users, keep) == init + (if keep(users[n]) then [users[n]] else []);
      forall i | 0 <= i < |init|
        ensures init[i].id != users[n].id
      {
        assert init[i] in users[..n];
      }
    }
  }

  class UserDatabase {
    var users: seq<User>
    var nextId: int

    ghost predicate Valid()
      reads this
    {
      UsersConsistent(users, nextId)
    }

    constructor()
      ensures Valid() && users == [] && nextId == 1
    {
      users := [];
      nextId := 1;
    }

    /** `findById`. */
    function FindById(id: int): (r: Option<User>)
      reads this
      ensures r.Some? ==> r.value in users && r.value.id == id
      ensures r.None? <==> forall u | u in users :: u.id != id
    {
      First(users, (u: User) => u.id == id)
    }

    /** `findByEmail`. */
    function FindByEmail(email: string): (r: Option<User>)
      reads this
      ensures r.Some? ==> r.value in users && r.value.email == email
      ensures r.None? <==> forall u | u in users :: u.email != email
    {
      First(users, (u: User) => u.email == email)
    }

    /** `findByProvider`: both the provider and the provider's user id must
        match. */
    function FindByProvider(provider: string, providerId: string): (r: Option<User>)
      reads this
      ensures r.Some? ==> r.value in users && r.value.provider == provider && r.value.providerId == providerId
      ensures r.None? <==> forall u | u in users :: !(u.provider == provider && u.providerId == providerId)
    {
      First(users, (u: User) => u.provider == provider && u.providerId == providerId)
    }

    /** `create`: the row gets the next id and both timestamps are now. */
    method Create(data: CreateUserData, now: int) returns (user: User)
      requires Valid()
      modifies this
      ensures Valid()
      ensures user == User(old(nextId), data.email, data.name, data.phone, data.profileImage, data.provider, data.providerId, now, now)
      ensures forall u | u in old(users) :: u.id != user.id
      ensures users == old(users) + [user] && nextId == old(nextId) + 1
    {
      user := User(nextId, data.email, data.name, data.phone, data.profileImage, data.provider, data.providerId, now, now);
      AppendConsistent(users, nextId, user);
      users := users + [user];
      nextId := nextId + 1;
    }

    /** `update`: with no defined field nothing is written and the stored
        row comes back; otherwise the given fields of row `id` are replaced
        and the new row comes back, or null when there is no such row. */
    method Update(id: int, data: UpdateUserData) returns (r: Option<User>)
      requires Valid()
      modifies this
      ensures Valid()
      ensures r.None? <==> old(FindById(id)).None?
      ensures r.Some? ==> r.value == Changed(old(FindById(id)).value, data)
      ensures users == ChangedRows(old(users), id, data) && nextId == old(nextId)
      ensures data.name.None? && data.phone.None? ==> users == old(users)
    {
      var st := BuildUserUpdate(id, data);
      if st.None? {
        UserUpdateNumbering(id, data);
        assert ChangedRows(users, id, data) == users;
        return FindById(id);
      }
      UpdateRowsMeaning(users, id, data);
      ReturnedMeaning(users, id, data);
      ChangedRowsConsistent(users, nextId, id, data);
      var returned := Returned(users, st.value);
      users := UpdateRows(users, st.value);
      r := if returned == [] then None else Some(returned[0]);
    }

    /** `delete`: true iff some row had that id. */
    method Delete(id: int) returns (deleted: bool)
      requires Valid()
      modifies this
      ensures Valid()
      ensures deleted <==> exists u | u in old(users) :: u.id == id
      ensures forall u :: u in users <==> u in old(users) && u.id != id
      ensures FindById(id).None? && nextId == old(nextId)
    {
      var remaining := Select(users, (u: User) => u.id != id);
      SelectDrops(users, (u: User) => u.id != id);
      SelectConsistent(users, nextId, (u: User) => u.id != id);
      deleted := |remaining| < |users|;
      users := remaining;
    }
  }

  /** Ids are unique, so an update changes at most the one row it names and
      the lookup by id afterwards sees the new row. */
  lemma UpdateThenFind(users: seq<User>, nextId: int, id: int, data: UpdateUserData)
    requires UsersConsistent(users, nextId)
    ensures var hit := (u: User) => u.id == id;
      && (First(users, hit).None? ==> First(ChangedRows(users, id, data), hit).None?)
      && (First(users, hit).Some? ==> First(ChangedRows(users, id, data), hit) == Some(Changed(First(users, hit).value, data)))
  {
    var hit := (u: User) => u.id == id;
    var after := ChangedRows(users, id, data);
    if First(users, hit).Some? {
      var i :| 0 <= i < |users| && users[i] == First(users, hit).value && hit(users[i]) && forall j | 0 <= j < i :: !hit(users[j]);
      var found := First(after, hit);
      var k :| 0 <= k < |after| && after[k] == found.value && hit(after[k]) && forall j | 0 <= j < k :: !hit(after[j]);
      assert k == i;
    }
  }
}
