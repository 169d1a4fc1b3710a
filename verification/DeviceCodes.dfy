/** The device-code table and its two keys (internal/storage/storage.go, internal/auth/device.go,
    sections 3.3 to 3.5 of RFC 8628). Every method executes at most one statement that writes, so a
    list of such statements is what any interleaving of any number of calls leaves behind. */
module DeviceCodes {
  import opened Prelude
  import opened Users

  datatype DeviceRow = DeviceRow(
    userCode: string, clientId: string, scopes: seq<string>, expires: Time,
    subject: string, done: bool, denied: bool)

  /** By device code, the primary key. */
  type DeviceTable = map<string, DeviceRow>

  /** The unique index on user codes. */
  ghost predicate OneToOne(t: DeviceTable) {
    forall d, e | d in t && e in t :: t[d].userCode == t[e].userCode ==> d == e
  }

  predicate UserCodeTaken(t: DeviceTable, userCode: string) {
    exists d :: d in t && t[d].userCode == userCode
  }

  datatype Statement =
    | Insert(device: string, userCode: string, clientId: string, scopes: seq<string>, expires: Time)
    | Approve(userCode: string, subject: string)
    | Deny(userCode: string)

  /** An insert that would repeat either key fails; an update touches the rows of its user code. */
  function Effect(t: DeviceTable, st: Statement): DeviceTable {
    match st
    case Insert(d, code, client, scopes, expires) =>
      if d in t || UserCodeTaken(t, code) then t
      else t[d := DeviceRow(code, client, scopes, expires, "", false, false)]
    case Approve(code, subject) =>
      map d | d in t :: if t[d].userCode == code then t[d].(subject := subject, done := true) else t[d]
    case Deny(code) =>
      map d | d in t :: if t[d].userCode == code then t[d].(denied := true) else t[d]
  }

  function RunFrom(t: DeviceTable, sts: seq<Statement>): DeviceTable {
    if sts == [] then t else Effect(RunFrom(t, sts[..|sts| - 1]), sts[|sts| - 1])
  }

  // ---- What a poll sees ---------------------------------------------------------------------------

  datatype State = State(clientId: string, scopes: seq<string>, expires: Time, subject: string, done: bool, denied: bool)

  function StateOf(row: DeviceRow): State {
    State(row.clientId, row.scopes, row.expires, row.subject, row.done, row.denied)
  }

  /** The state says what the row says. */
  ghost predicate Shows(st: State, row: DeviceRow) {
    && st.done == row.done && st.denied == row.denied && st.subject == row.subject
    && st.clientId == row.clientId && st.scopes == row.scopes && st.expires == row.expires
  }

  /** GetDeviceAuthorizatonState: the device code must have been given to this client. */
  function Poll(t: DeviceTable, client: string, device: string): Option<State> {
    if device in t && t[device].clientId == client then Some(StateOf(t[device])) else None
  }

  predicate Approved(sts: seq<Statement>, code: string) {
    exists i :: 0 <= i < |sts| && sts[i].Approve? && sts[i].userCode == code
  }

  predicate Denied(sts: seq<Statement>, code: string) {
    exists i :: 0 <= i < |sts| && sts[i] == Deny(code)
  }

  /** Statement i is the last approval of this user code. */
  predicate LastApproval(sts: seq<Statement>, code: string, i: nat) {
    && i < |sts| && sts[i].Approve? && sts[i].userCode == code
    && forall j :: i < j < |sts| ==> !(sts[j].Approve? && sts[j].userCode == code)
  }

  /** Device codes and user codes correspond one to one after any statements. */
  lemma {:induction false} CodesStayOneToOne(t: DeviceTable, sts: seq<Statement>)
    requires OneToOne(t)
    ensures OneToOne(RunFrom(t, sts))
  {
    if sts != [] {
      var front := RunFrom(t, sts[..|sts| - 1]);
      CodesStayOneToOne(t, sts[..|sts| - 1]);
      var last := sts[|sts| - 1];
      if last.Insert? && last.device !in front && !UserCodeTaken(front, last.userCode) {
        forall d | d in front
          ensures front[d].userCode != last.userCode
        {
        }
      }
    }
  }

  /** What a row becomes: its parameters stay, done and denied are set exactly by approvals and
      denials of its own user code and never unset, and the last approval decides the subject. */
  lemma {:induction false} RowsFollowTheirUserCode(t: DeviceTable, sts: seq<Statement>, d: string)
    requires d in t
    ensures d in RunFrom(t, sts)
    ensures var row := RunFrom(t, sts)[d];
      && row.userCode == t[d].userCode && row.clientId == t[d].clientId
      && row.scopes == t[d].scopes && row.expires == t[d].expires
      && (row.done <==> t[d].done || Approved(sts, t[d].userCode))
      && (row.denied <==> t[d].denied || Denied(sts, t[d].userCode))
      && (!Approved(sts, t[d].userCode) ==> row.subject == t[d].subject)
      && (forall i: nat :: LastApproval(sts, t[d].userCode, i) ==> row.subject == sts[i].subject)
  {
    if sts != [] {
      var n := |sts| - 1;
      var front := sts[..n];
      var code := t[d].userCode;
      RowsFollowTheirUserCode(t, front, d);
      ApprovedOneMore(sts, code);
      DeniedOneMore(sts, code);
      forall i: nat | LastApproval(sts, code, i)
        ensures RunFrom(t, sts)[d].subject == sts[i].subject
      {
        if i < n {
          assert LastApproval(front, code, i);
          assert !(sts[n].Approve? && sts[n].userCode == code);
        }
      }
    }
  }

  /** Every row was inserted with the parameters it has. */
  lemma {:induction false} RowsWereInserted(sts: seq<Statement>, d: string)
    requires d in RunFrom(map[], sts)
    ensures var row := RunFrom(map[], sts)[d];
      exists i :: 0 <= i < |sts| && sts[i] == Insert(d, row.userCode, row.clientId, row.scopes, row.expires)
  {
    var n := |sts| - 1;
    var row := RunFrom(map[], sts)[d];
    if d in RunFrom(map[], sts[..n]) {
      RowsWereInserted(sts[..n], d);
      var was := RunFrom(map[], sts[..n])[d];
      var i :| 0 <= i < n && sts[..n][i] == Insert(d, was.userCode, was.clientId, was.scopes, was.expires);
      assert sts[i] == Insert(d, row.userCode, row.clientId, row.scopes, row.expires);
    } else {
      assert sts[n] == Insert(d, row.userCode, row.clientId, row.scopes, row.expires);
    }
  }

  lemma ApprovedOneMore(sts: seq<Statement>, code: string)
    requires sts != []
    ensures Approved(sts, code) <==>
      Approved(sts[..|sts| - 1], code) || (sts[|sts| - 1].Approve? && sts[|sts| - 1].userCode == code)
  {
    var n := |sts| - 1;
    if Approved(sts[..n], code) {
      var i :| 0 <= i < n && sts[..n][i].Approve? && sts[..n][i].userCode == code;
      assert sts[i].Approve? && sts[i].userCode == code;
    }
    if Approved(sts, code) {
      var i :| 0 <= i < |sts| && sts[i].Approve? && sts[i].userCode == code;
      if i < n { assert sts[..n][i].Approve? && sts[..n][i].userCode == code; }
    }
  }

  lemma DeniedOneMore(sts: seq<Statement>, code: string)
    requires sts != []
    ensures Denied(sts, code) <==> Denied(sts[..|sts| - 1], code) || sts[|sts| - 1] == Deny(code)
  {
    var n := |sts| - 1;
    if Denied(sts[..n], code) {
      var i :| 0 <= i < n && sts[..n][i] == Deny(code);
      assert sts[i] == Deny(code);
    }
    if Denied(sts, code) {
      var i :| 0 <= i < |sts| && sts[i] == Deny(code);
      if i < n { assert sts[..n][i] == Deny(code); }
    }
  }

  /** In any run of the service: an approval by user code is what polling the matching device code
      with its own client sees from then on, other clients see nothing, and every other row is
      exactly as it was. */
  lemma ApprovalReachesItsDevice(sts: seq<Statement>, d: string, subject: string, more: seq<Statement>, other: string)
    requires d in RunFrom(map[], sts)
    requires other != RunFrom(map[], sts)[d].clientId
    requires !Approved(more, RunFrom(map[], sts)[d].userCode)
    ensures var t := RunFrom(map[], sts); var code := t[d].userCode;
      var t1 := Effect(t, Approve(code, subject)); var t2 := RunFrom(t1, more);
      && t1 == t[d := t[d].(subject := subject, done := true)]
      && Poll(t2, other, d) == None
      && Poll(t2, t[d].clientId, d) ==
           Some(StateOf(t[d].(subject := subject, done := true, denied := t[d].denied || Denied(more, code))))
    ensures var t := RunFrom(map[], sts); var code := t[d].userCode;
      var seen := Poll(RunFrom(Effect(t, Approve(code, subject)), more), t[d].clientId, d);
      && seen.Some? && seen.value.done && seen.value.subject == subject
      && (seen.value.denied <==> t[d].denied || Denied(more, code))
      && seen.value.clientId == t[d].clientId && seen.value.scopes == t[d].scopes && seen.value.expires == t[d].expires
  {
    var t := RunFrom(map[], sts);
    CodesStayOneToOne(map[], sts);
    var t1 := Effect(t, Approve(t[d].userCode, subject));
    forall x | x in t && t[x].userCode == t[d].userCode
      ensures x == d
    {
    }
    RowsFollowTheirUserCode(t1, more, d);
  }

  /** The same for a denial: from then on every poll of that device says denied; whether it also says
      approved, and for whom, is up to the approvals. */
  lemma DenialReachesItsDevice(sts: seq<Statement>, d: string, more: seq<Statement>, other: string)
    requires d in RunFrom(map[], sts)
    requires other != RunFrom(map[], sts)[d].clientId
    ensures var t := RunFrom(map[], sts); Effect(t, Deny(t[d].userCode)) == t[d := t[d].(denied := true)]
    ensures var t := RunFrom(map[], sts); var code := t[d].userCode;
      var t2 := RunFrom(Effect(t, Deny(code)), more); var seen := Poll(t2, t[d].clientId, d);
      && Poll(t2, other, d) == None
      && seen.Some? && seen.value.denied && (seen.value.done <==> t[d].done || Approved(more, code))
      && (!Approved(more, code) ==> seen.value.subject == t[d].subject)
      && (forall i: nat :: LastApproval(more, code, i) ==> seen.value.subject == more[i].subject)
      && seen.value.clientId == t[d].clientId && seen.value.scopes == t[d].scopes && seen.value.expires == t[d].expires
  {
    var t := RunFrom(map[], sts);
    RowsFollowTheirUserCode(Effect(t, Deny(t[d].userCode)), more, d);
    CodesStayOneToOne(map[], sts);
    forall x | x in t && t[x].userCode == t[d].userCode
      ensures x == d
    {
    }
  }

  // ---- The methods ------------------------------------------------------------------------------------

  datatype StoreResult = Stored | ClientNotFound | DuplicateUserCode | DuplicateDeviceCode

  class DeviceStore {
    var table: DeviceTable
    var clients: set<string>
    const users: UserStore

    constructor (users: UserStore)
      ensures table == map[] && clients == {} && this.users == users
    {
      table, clients := map[], {};
      this.users := users;
    }

    method StoreDeviceAuthorization(client: string, device: string, userCode: string, expires: Time, scopes: seq<string>)
      returns (result: StoreResult)
      modifies `table
      ensures result == (
        if client !in clients then ClientNotFound
        else if UserCodeTaken(old(table), userCode) then DuplicateUserCode
        else if device in old(table) then DuplicateDeviceCode
        else Stored)
      ensures table == if client in clients then Effect(old(table), Insert(device, userCode, client, scopes, expires)) else old(table)
      ensures result.Stored? ==>
        Poll(table, client, device) == Some(State(client, scopes, expires, "", false, false)) && table - {device} == old(table)
      ensures result == (
        if client !in clients then ClientNotFound
        else if exists d :: d in old(table) && old(table)[d].userCode == userCode then DuplicateUserCode
        else if device in old(table) then DuplicateDeviceCode
        else Stored)
      ensures table == if result.Stored? then
          old(table)[device := DeviceRow(userCode, client, scopes, expires, "", false, false)]
        else old(table)
    {
      if client !in clients {
        return ClientNotFound;
      }
      var rows := set d | d in table && table[d].userCode == userCode;
      if |rows| > 0 {
        var d :| d in rows;
        assert UserCodeTaken(table, userCode);
        return DuplicateUserCode;
      }
      assert forall d :: d in table && table[d].userCode == userCode ==> d in rows;
      if device in table {
        return DuplicateDeviceCode;
      }
      table := table[device := DeviceRow(userCode, client, scopes, expires, "", false, false)];
      return Stored;
    }

    method GetDeviceAuthorizatonState(client: string, device: string) returns (st: Option<State>)
      ensures st == Poll(table, client, device)
      ensures st.Some? <==> device in table && table[device].clientId == client
      ensures st.Some? ==> Shows(st.value, table[device])
    {
      if device !in table || table[device].clientId != client {
        return None;
      }
      return Some(StateOf(table[device]));
    }

    method GetDeviceAuthorizationByUserCode(userCode: string) returns (st: Option<State>)
      requires OneToOne(table)
      ensures st.None? <==> !UserCodeTaken(table, userCode)
      ensures forall d :: d in table && table[d].userCode == userCode ==> st == Some(StateOf(table[d]))
      ensures st.Some? <==> exists d :: d in table && table[d].userCode == userCode
      ensures forall d :: d in table && table[d].userCode == userCode ==> st.Some? && Shows(st.value, table[d])
    {
      var rows := set d | d in table && table[d].userCode == userCode;
      if rows == {} {
        assert forall d :: d in table && table[d].userCode == userCode ==> d in rows;
        return None;
      }
      var d :| d in rows;
      return Some(StateOf(table[d]));
    }

    method CompleteDeviceAuthorization(userCode: string, subject: string)
      modifies `table
      ensures table == Effect(old(table), Approve(userCode, subject))
      ensures table.Keys == old(table).Keys
      ensures forall d :: d in table && old(table)[d].userCode != userCode ==> table[d] == old(table)[d]
      ensures forall d :: d in table && old(table)[d].userCode == userCode ==>
        table[d] == old(table)[d].(subject := subject, done := true)
    {
      table := map d | d in table ::
        if table[d].userCode == userCode then table[d].(subject := subject, done := true) else table[d];
    }

    method DenyDeviceAuthorization(userCode: string)
      modifies `table
      ensures table == Effect(old(table), Deny(userCode))
      ensures table.Keys == old(table).Keys
      ensures forall d :: d in table && old(table)[d].userCode != userCode ==> table[d] == old(table)[d]
      ensures forall d :: d in table && old(table)[d].userCode == userCode ==> table[d] == old(table)[d].(denied := true)
    {
      table := map d | d in table :: if table[d].userCode == userCode then table[d].(denied := true) else table[d];
    }

    /** POST /device/approve: anything but allow denies. */
    method DeviceApprove(userCode: string, allow: bool, account: string)
      modifies `table
      ensures table == Effect(old(table),
        if !allow then Deny(userCode)
        else Approve(userCode, if account in users.users then users.users[account].SubjectOrId() else account))
      ensures table.Keys == old(table).Keys
      ensures forall d :: d in table && old(table)[d].userCode != userCode ==> table[d] == old(table)[d]
      ensures !allow ==> forall d :: d in table && old(table)[d].userCode == userCode ==> table[d] == old(table)[d].(denied := true)
      ensures allow ==> forall d :: d in table && old(table)[d].userCode == userCode ==>
        && table[d] == old(table)[d].(done := true, subject := table[d].subject)
        && (account !in users.users ==> table[d].subject == account)
        && (account in users.users ==> var u := users.users[account]; table[d].subject == if u.subject == "" then u.id else u.subject)
    {
      if !allow {
        DenyDeviceAuthorization(userCode);
        return;
      }
      var subject := account;
      var u := users.GetUser(account);
      if u.Some? {
        subject := u.value.SubjectOrId();
      }
      CompleteDeviceAuthorization(userCode, subject);
    }
  }
}
