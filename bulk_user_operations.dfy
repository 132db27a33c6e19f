/** Bulk operations on the users of the users table: which users the
    selection designates, the select-all toggle, which operations the menu
    offers, the confirmation step, and the batch run that calls the service
    once per selected id and reports to the progress registry. */
module BulkUserOperations {
  import opened Types
  import opened Text
  import opened ProgressRegistry
  import opened Arith

  datatype BulkOperation = Enable | Disable | MakeAdmin | RemoveAdmin | ResetKeys | Delete

  // ----- selection -----------------------------------------------------------

  function Ids(users: seq<User>): (ids: seq<int>)
    ensures |ids| == |users|
    ensures forall k :: 0 <= k < |users| ==> ids[k] == users[k].id
  {
    if |users| == 0 then [] else [users[0].id] + Ids(users[1..])
  }

  /** `users.filter(user => selectedUsers.includes(user.id))`. */
  function SelectedUserObjects(users: seq<User>, selected: seq<int>): (r: seq<User>)
    ensures forall u :: u in r <==> u in users && u.id in selected
    ensures |r| <= |users|
  {
    if |users| == 0 then []
    else
      var rest := SelectedUserObjects(users[1..], selected);
      assert users == [users[0]] + users[1..];
      if users[0].id in selected then [users[0]] + rest else rest
  }

  /** The filter keeps the whole list exactly when every listed id is
      selected. */
  lemma {:induction false} SelectedEveryone(users: seq<User>, selected: seq<int>)
    ensures SelectedUserObjects(users, selected) == users <==>
      forall k :: 0 <= k < |users| ==> users[k].id in selected
    decreases |users|
  {
    if SelectedUserObjects(users, selected) == users {
      forall k | 0 <= k < |users|
        ensures users[k].id in selected
      {
        assert users[k] in SelectedUserObjects(users, selected);
      }
    }
    if |users| > 0 && forall k :: 0 <= k < |users| ==> users[k].id in selected {
      var rest := users[1..];
      forall k | 0 <= k < |rest|
        ensures rest[k].id in selected
      {
        assert rest[k] == users[k + 1];
      }
      SelectedEveryone(rest, selected);
      assert users == [users[0]] + rest;
    }
  }

  /** The header checkbox is checked. */
  predicate AllSelected(users: seq<User>, selected: seq<int>) {
    |users| > 0 && |selected| == |users|
  }

  /** The header checkbox is indeterminate. */
  predicate SomeSelected(users: seq<User>, selected: seq<int>) {
    |selected| > 0 && |selected| < |users|
  }

  /** The checkbox is never both checked and indeterminate, and it is one of
      the two exactly when something is selected and the selection is no
      longer than the list. */
  lemma CheckboxStates(users: seq<User>, selected: seq<int>)
    ensures !(AllSelected(users, selected) && SomeSelected(users, selected))
    ensures AllSelected(users, selected) || SomeSelected(users, selected) <==>
      0 < |selected| <= |users|
  {
  }

  predicate Distinct(s: seq<int>) {
    forall i, j :: 0 <= i < j < |s| ==> s[i] != s[j]
  }

  function Elements(s: seq<int>): set<int> {
    set x | x in s
  }

  lemma {:induction false} ElementsCard(s: seq<int>)
    ensures |Elements(s)| <= |s|
    ensures Distinct(s) ==> |Elements(s)| == |s|
    decreases |s|
  {
    if |s| > 0 {
      var t := s[..|s| - 1];
      ElementsCard(t);
      assert Elements(s) == Elements(t) + {s[|s| - 1]};
      if Distinct(s) {
        assert s[|s| - 1] !in Elements(t);
      }
    }
  }

  lemma SameSizeSubset(a: set<int>, b: set<int>)
    requires a <= b && |b| <= |a|
    ensures a == b
  {
    assert |b - a| == |b| - |a|;
  }

  /** A duplicate-free list drawn from `b` and at least as long as `b`
      contains all of `b`. */
  lemma LongSubsetCovers(a: seq<int>, b: seq<int>)
    requires Distinct(a) && |b| <= |a|
    requires forall x :: x in a ==> x in b
    ensures forall x :: x in b ==> x in a
  {
    ElementsCard(a);
    ElementsCard(b);
    assert Elements(a) <= Elements(b);
    SameSizeSubset(Elements(a), Elements(b));
    forall x | x in b
      ensures x in a
    {
      assert x in Elements(b);
    }
  }

  lemma CheckedMeansEveryone(users: seq<User>, selected: seq<int>)
    requires Distinct(selected)
    requires forall x :: x in selected ==> x in Ids(users)
    requires AllSelected(users, selected)
    ensures forall k :: 0 <= k < |users| ==> users[k].id in selected
  {
    var ids := Ids(users);
    LongSubsetCovers(selected, ids);
    forall k | 0 <= k < |users|
      ensures users[k].id in selected
    {
      assert ids[k] in ids;
    }
  }

  /** Two duplicate-free lists with the same members are equally long. */
  lemma SameMembersSameLength(a: seq<int>, b: seq<int>)
    requires Distinct(a) && Distinct(b)
    requires forall x :: x in a <==> x in b
    ensures |a| == |b|
  {
    ElementsCard(a);
    ElementsCard(b);
    assert Elements(a) == Elements(b);
  }

  lemma IdsCovered(users: seq<User>, selected: seq<int>)
    requires forall k :: 0 <= k < |users| ==> users[k].id in selected
    ensures forall k :: 0 <= k < |Ids(users)| ==> Ids(users)[k] in selected
  {
  }

  lemma CoveredSameLength(a: seq<int>, b: seq<int>)
    requires Distinct(a) && Distinct(b)
    requires forall x :: x in a ==> x in b
    requires forall k :: 0 <= k < |b| ==> b[k] in a
    ensures |a| == |b|
  {
    forall x | x in b
      ensures x in a
    {
      var k :| 0 <= k < |b| && b[k] == x;
    }
    SameMembersSameLength(a, b);
  }

  /** The counting rule of the checkbox agrees with the selection itself
      whenever the selection is a duplicate-free list of listed ids (which the
      table's checkboxes maintain): with a non-empty list, the box is checked
      exactly when every listed user is selected. */
  lemma AllSelectedMeansEveryone(users: seq<User>, selected: seq<int>)
    requires Distinct(selected) && Distinct(Ids(users))
    requires forall x :: x in selected ==> x in Ids(users)
    requires |users| > 0
    ensures AllSelected(users, selected) <==> SelectedUserObjects(users, selected) == users
  {
    SelectedEveryone(users, selected);
    if AllSelected(users, selected) {
      CheckedMeansEveryone(users, selected);
    }
    if SelectedUserObjects(users, selected) == users {
      IdsCovered(users, selected);
      CoveredSameLength(selected, Ids(users));
    }
  }

  /** The selection `handleSelectAll` installs. */
  function SelectAllToggled(users: seq<User>, selected: seq<int>): seq<int> {
    if AllSelected(users, selected) then [] else Ids(users)
  }

  /** From the checked state the toggle clears the selection; otherwise it
      selects every listed user, in list order, which checks the box. */
  lemma SelectAllToggle(users: seq<User>, selected: seq<int>)
    ensures AllSelected(users, selected) ==>
      SelectAllToggled(users, selected) == [] && SelectedUserObjects(users, []) == []
    ensures !AllSelected(users, selected) ==>
      && SelectAllToggled(users, selected) == Ids(users)
      && SelectedUserObjects(users, SelectAllToggled(users, selected)) == users
      && (|users| > 0 ==> AllSelected(users, SelectAllToggled(users, selected)))
  {
    if AllSelected(users, selected) {
      SelectedNobody(users);
    } else {
      var ids := Ids(users);
      forall k | 0 <= k < |users|
        ensures users[k].id in ids
      {
        assert ids[k] == users[k].id;
      }
      SelectedEveryone(users, ids);
    }
  }

  lemma SelectedNobody(users: seq<User>)
    ensures SelectedUserObjects(users, []) == []
  {
  }

  // ----- operations and their service calls ----------------------------------

  /** The `adminService` call made for one user id. */
  datatype ServiceCall =
    | UpdateUserStatus(userId: int, isActive: bool)
    | UpdateUserAdmin(userId: int, isAdmin: bool)
    | ResetUserKeys(userId: int)
    | DeleteUser(userId: int)

  /** The `switch (operation)` of the batch: one call per id, with a fixed flag. */
  function CallFor(op: BulkOperation, id: int): (c: ServiceCall)
    ensures c.userId == id
  {
    match op
    case Enable => UpdateUserStatus(id, true)
    case Disable => UpdateUserStatus(id, false)
    case MakeAdmin => UpdateUserAdmin(id, true)
    case RemoveAdmin => UpdateUserAdmin(id, false)
    case ResetKeys => ResetUserKeys(id)
    case Delete => DeleteUser(id)
  }

  /** The operation a service call belongs to. */
  function OperationOf(c: ServiceCall): BulkOperation {
    match c
    case UpdateUserStatus(_, active) => if active then Enable else Disable
    case UpdateUserAdmin(_, admin) => if admin then MakeAdmin else RemoveAdmin
    case ResetUserKeys(_) => ResetKeys
    case DeleteUser(_) => Delete
  }

  /** Operations and service calls on one id are in one-to-one
      correspondence: each operation issues exactly one kind of call with
      exactly one flag, and no two operations issue the same call. */
  lemma CallForOneToOne(op: BulkOperation, id: int, c: ServiceCall)
    ensures OperationOf(CallFor(op, id)) == op
    ensures CallFor(OperationOf(c), c.userId) == c
  {
  }

  /** The calls a batch dispatches, one per id, in order. */
  function Dispatched(op: BulkOperation, ids: seq<int>): (cs: seq<ServiceCall>)
    ensures |cs| == |ids|
    ensures forall k :: 0 <= k < |ids| ==> cs[k] == CallFor(op, ids[k])
  {
    if |ids| == 0 then [] else Dispatched(op, ids[..|ids| - 1]) + [CallFor(op, ids[|ids| - 1])]
  }

  /** The user already has the flag this call sets, so the call would not
      change it. */
  predicate AlreadyHolds(c: ServiceCall, u: User) {
    match c
    case UpdateUserStatus(_, active) => u.isActive == active
    case UpdateUserAdmin(_, admin) => u.isAdmin == admin
    case ResetUserKeys(_) => false
    case DeleteUser(_) => false
  }

  function Any(us: seq<User>, p: User -> bool): (b: bool)
    ensures b <==> exists u :: u in us && p(u)
  {
    if |us| == 0 then false
    else
      assert us == [us[0]] + us[1..];
      p(us[0]) || Any(us[1..], p)
  }

  /** `getOperationAvailability`: whether the menu item is enabled. */
  function Availability(op: BulkOperation, users: seq<User>, selected: seq<int>): (available: bool)
    ensures available <==>
      op == ResetKeys || op == Delete ||
      exists u :: u in users && u.id in selected && !AlreadyHolds(CallFor(op, u.id), u)
  {
    var chosen := SelectedUserObjects(users, selected);
    match op
    case Enable => Any(chosen, (u: User) => !u.isActive)
    case Disable => Any(chosen, (u: User) => u.isActive)
    case MakeAdmin => Any(chosen, (u: User) => !u.isAdmin)
    case RemoveAdmin => Any(chosen, (u: User) => u.isAdmin)
    case ResetKeys => true
    case Delete => true
  }

  /** Ids that are selected but not listed have no say in availability. */
  lemma AvailabilityIgnoresUnlisted(op: BulkOperation, users: seq<User>, selected: seq<int>, extra: int)
    requires extra !in Ids(users)
    ensures Availability(op, users, selected + [extra]) == Availability(op, users, selected)
  {
    var ids := Ids(users);
    forall u | u in users
      ensures u.id in selected + [extra] <==> u.id in selected
    {
      var k :| 0 <= k < |users| && users[k] == u;
      assert ids[k] == u.id;
    }
  }

  // ----- texts ---------------------------------------------------------------

  function OperationName(op: BulkOperation): string {
    match op
    case Enable => "启用"
    case Disable => "禁用"
    case MakeAdmin => "设为管理员"
    case RemoveAdmin => "取消管理员"
    case ResetKeys => "重置密钥"
    case Delete => "删除"
  }

  /** Each operation is named by a text of its own. */
  lemma OperationNamesDistinct(a: BulkOperation, b: BulkOperation)
    ensures OperationName(a) != ""
    ensures OperationName(a) == OperationName(b) ==> a == b
  {
    if a != b {
      assert OperationName(a)[0] != OperationName(b)[0];
    }
  }

  /** What the confirmation dialog is opened with. */
  datatype PendingOperation = PendingOperation(kind: BulkOperation, title: string, description: string)

  /** `operationConfigs[operation]` for a selection of `count` ids. */
  function PendingFor(op: BulkOperation, count: nat): (p: PendingOperation)
    ensures p.kind == op
  {
    var n := ShowNat(count);
    match op
    case Enable => PendingOperation(op, "批量启用用户", "确定要启用选中的 " + n + " 个用户吗？")
    case Disable => PendingOperation(op, "批量禁用用户", "确定要禁用选中的 " + n + " 个用户吗？禁用后用户将无法登录。")
    case MakeAdmin => PendingOperation(op, "批量设为管理员", "确定要将选中的 " + n + " 个用户设为管理员吗？")
    case RemoveAdmin => PendingOperation(op, "批量取消管理员", "确定要取消选中的 " + n + " 个用户的管理员权限吗？")
    case ResetKeys => PendingOperation(op, "批量重置密钥", "确定要重置选中的 " + n + " 个用户的API密钥吗？旧密钥将失效。")
    case Delete => PendingOperation(op, "批量删除用户", "确定要删除选中的 " + n + " 个用户吗？此操作不可撤销！")
  }

  const SelectFirstToast: Toast := Toast("请选择用户", Some("请先选择要操作的用户"), true)

  // ----- the batch -----------------------------------------------------------

  /** What a per-user call rejected with: an `Error` with its message, or some
      other thrown value. */
  datatype Thrown = ErrorValue(message: string) | OtherValue

  datatype ItemOutcome = Succeeded | Failed(reason: Thrown)

  /** How the batch promise settles. */
  datatype BatchResult = Resolved | Rejected(reason: Thrown)

  /** `Math.round(((index + 1) / n) * 100)` in exact arithmetic, with halves
      rounded up as `Math.round` does for positive numbers. */
  function Progress(index: nat, n: nat): (p: int)
    requires index < n
    ensures 0 <= p <= 100
    ensures index == n - 1 ==> p == 100
    ensures 2 * n * p <= 200 * (index + 1) + n < 2 * n * (p + 1)
  {
    var num, den := 200 * (index + 1) + n, 2 * n;
    DivBounds(num, den);
    ProgressRange(index, n, num / den);
    num / den
  }

  /** The quotient `Progress` takes lies in 0..100 and is 100 for the last call. */
  lemma ProgressRange(index: nat, n: nat, p: int)
    requires index < n
    requires 2 * n * p <= 200 * (index + 1) + n < 2 * n * (p + 1)
    ensures 0 <= p <= 100
    ensures index == n - 1 ==> p == 100
  {
    var num, den := 200 * (index + 1) + n, 2 * n;
    if p > 100 {
      MulMonotone(den, 101, p);
    }
    if p < 0 {
      MulMonotone(den, p + 1, 0);
    }
    if index == n - 1 {
      DivUnique(num, den, 100);
      DivUnique(num, den, p);
    }
  }

  /** The percentage grows with the number of calls it counts. */
  lemma ProgressMonotone(i: nat, j: nat, n: nat)
    requires i <= j < n
    ensures Progress(i, n) <= Progress(j, n)
  {
    var pi, pj := Progress(i, n), Progress(j, n);
    if pi > pj {
      MulMonotone(2 * n, pj + 1, pi);
    }
  }

  function ProgressText(index: nat, n: nat): string {
    "已处理 " + ShowNat(index + 1) + "/" + ShowNat(n) + " 个用户"
  }

  /** The entry a batch of `n` calls starts with. */
  function StartEntry(op: BulkOperation, n: nat): (e: Entry)
    ensures e.status == Loading && e.progress == 0
  {
    Entry("批量" + OperationName(op) + "用户", "正在处理 " + ShowNat(n) + " 个用户...", 0, Loading)
  }

  /** What a call of a batch of `n` reports once it settles, when `done`
      calls resolved before it: an `update` counting itself if it resolved,
      nothing if it rejected. */
  function ItemCalls(token: nat, n: nat, done: nat, outcome: ItemOutcome): (cs: seq<Call>)
    requires done < n
    ensures |cs| == (if outcome.Succeeded? then 1 else 0)
    ensures forall k :: 0 <= k < |cs| ==>
      cs[k] == UpdateCall(token, Progress(done, n), ProgressText(done, n)) && 0 <= cs[k].progress <= 100
  {
    if outcome.Succeeded? then [UpdateCall(token, Progress(done, n), ProgressText(done, n))] else []
  }

  /** The number of calls that resolved. */
  function CountSucceeded(outcomes: seq<ItemOutcome>): (c: nat)
    ensures c <= |outcomes|
    ensures AllSucceeded(outcomes) ==> c == |outcomes|
  {
    if |outcomes| == 0 then 0
    else CountSucceeded(outcomes[..|outcomes| - 1]) + (if outcomes[|outcomes| - 1].Succeeded? then 1 else 0)
  }

  /** The `update`s of a batch, item by item: each call that resolves
      reports how many have resolved so far, itself included. */
  function ProgressCalls(token: nat, n: nat, outcomes: seq<ItemOutcome>): (cs: seq<Call>)
    requires |outcomes| <= n
    ensures forall k :: 0 <= k < |cs| ==> cs[k].UpdateCall? && cs[k].token == token && 0 <= cs[k].progress <= 100
    ensures |cs| <= |outcomes|
    decreases |outcomes|
  {
    if |outcomes| == 0 then []
    else
      var i := |outcomes| - 1;
      ProgressCalls(token, n, outcomes[..i]) + ItemCalls(token, n, CountSucceeded(outcomes[..i]), outcomes[i])
  }

  /** The reference sequence of `update`s after `m` of `n` calls resolved:
      the k-th says k+1 of n are done. */
  function CountUpdates(token: nat, n: nat, m: nat): (cs: seq<Call>)
    requires m <= n
    ensures |cs| == m
    ensures forall k :: 0 <= k < m ==> cs[k] == UpdateCall(token, Progress(k, n), ProgressText(k, n))
  {
    if m == 0 then [] else CountUpdates(token, n, m - 1) + [UpdateCall(token, Progress(m - 1, n), ProgressText(m - 1, n))]
  }

  /** A batch's `update`s are exactly the reference counting sequence for
      the number of calls that resolved. */
  lemma {:induction false} ProgressCallsCount(token: nat, n: nat, outcomes: seq<ItemOutcome>)
    requires |outcomes| <= n
    ensures ProgressCalls(token, n, outcomes) == CountUpdates(token, n, CountSucceeded(outcomes))
    decreases |outcomes|
  {
    if |outcomes| > 0 {
      var i := |outcomes| - 1;
      var c := CountSucceeded(outcomes[..i]);
      ProgressCallsCount(token, n, outcomes[..i]);
      assert ProgressCalls(token, n, outcomes) == CountUpdates(token, n, c) + ItemCalls(token, n, c, outcomes[i]);
      if outcomes[i].Succeeded? {
        assert CountSucceeded(outcomes) == c + 1;
        assert ItemCalls(token, n, c, outcomes[i]) == [UpdateCall(token, Progress(c, n), ProgressText(c, n))];
      } else {
        assert CountSucceeded(outcomes) == c;
        assert ItemCalls(token, n, c, outcomes[i]) == [];
      }
    }
  }

  /** Counted progress never goes backwards, and it ends at 100 once every
      call of the batch has resolved, whichever order they settle in. */
  lemma CountedProgressMonotone(token: nat, n: nat, m: nat)
    requires m <= n
    ensures var cs := CountUpdates(token, n, m);
      && (forall j, k :: 0 <= j <= k < m ==> cs[j].progress <= cs[k].progress)
      && (m == n > 0 ==> cs[m - 1].progress == 100)
  {
    var cs := CountUpdates(token, n, m);
    forall j, k | 0 <= j <= k < m
      ensures cs[j].progress <= cs[k].progress
    {
      ProgressMonotone(j, k, n);
    }
  }

  /** The `update`s as `mutationFn` writes them, in the order the calls
      settle: `order[k]` is the list index of the k-th call to resolve, and
      its update reports that index rather than a count. */
  function IndexUpdates(token: nat, n: nat, order: seq<nat>): (cs: seq<Call>)
    requires forall k :: 0 <= k < |order| ==> order[k] < n
    ensures |cs| == |order|
    ensures forall k :: 0 <= k < |order| ==> cs[k] == UpdateCall(token, Progress(order[k], n), ProgressText(order[k], n))
  {
    if |order| == 0 then []
    else
      var last := order[|order| - 1];
      IndexUpdates(token, n, order[..|order| - 1]) + [UpdateCall(token, Progress(last, n), ProgressText(last, n))]
  }

  /** As written, progress can go backwards and a successful batch can end
      short of 100: two calls of which the second resolves first report 100
      and then 50; with a registry whose `complete` keeps the last progress,
      as `Apply` here does, the entry completes at 50. Counting the resolved
      calls reports 50 and then 100 for the same run. */
  lemma IndexProgressCanRegress(token: nat, op: BulkOperation)
    ensures var cs := IndexUpdates(token, 2, [1, 0]);
      var e := Replay(StartEntry(op, 2), cs + [TerminalCall(token, op, [Succeeded, Succeeded])]);
      && cs[0].progress == 100 && cs[1].progress == 50
      && e.status == Success && e.progress == 50
      && CountUpdates(token, 2, 2)[0].progress == 50 && CountUpdates(token, 2, 2)[1].progress == 100
  {
    var cs := IndexUpdates(token, 2, [1, 0]);
    var start := StartEntry(op, 2);
    var t := TerminalCall(token, op, [Succeeded, Succeeded]);
    assert Progress(0, 2) == 50;
    assert cs[0].progress == 100 && cs[1].progress == 50;
    UpdatesKeepLoading(start, cs);
    UpdatesShowLastProgress(start, cs);
    ReplaySnoc(start, cs, t);
  }

  predicate AllSucceeded(outcomes: seq<ItemOutcome>) {
    forall k :: 0 <= k < |outcomes| ==> outcomes[k].Succeeded?
  }

  /** The rejection that ends the batch: the first failure in list order. */
  function FirstFailure(outcomes: seq<ItemOutcome>): (f: Option<Thrown>)
    ensures f.None? <==> AllSucceeded(outcomes)
    ensures f.Some? ==>
      exists k :: 0 <= k < |outcomes| && outcomes[k] == Failed(f.value) && AllSucceeded(outcomes[..k])
  {
    if |outcomes| == 0 then None
    else if outcomes[0].Failed? then
      assert outcomes[..0] == [];
      Some(outcomes[0].reason)
    else
      var f := FirstFailure(outcomes[1..]);
      if f.Some? then
        var k :| 0 <= k < |outcomes[1..]| && outcomes[1..][k] == Failed(f.value) && AllSucceeded(outcomes[1..][..k]);
        assert outcomes[k + 1] == Failed(f.value);
        assert outcomes[..k + 1] == [outcomes[0]] + outcomes[1..][..k];
        f
      else f
  }

  /** The entry's text for a rejection: the message of an `Error`, a fixed
      text for anything else thrown. */
  function FailureText(t: Thrown): (s: string)
    ensures t.ErrorValue? ==> s == t.message
    ensures t.OtherValue? ==> s == "操作失败"
  {
    match t
    case ErrorValue(m) => m
    case OtherValue => "操作失败"
  }

  /** The call that ends the progress entry. */
  function TerminalCall(token: nat, op: BulkOperation, outcomes: seq<ItemOutcome>): (c: Call)
    ensures IsTerminal(c) && c.token == token
    ensures c.CompleteCall? <==> AllSucceeded(outcomes)
    ensures c.CompleteCall? ==> c.title == "批量操作完成"
    ensures c.ErrorCall? ==> c.title == "批量操作失败" && c.description == FailureText(FirstFailure(outcomes).value)
  {
    match FirstFailure(outcomes)
    case None => CompleteCall(token, "批量操作完成", "成功" + OperationName(op) + " " + ShowNat(|outcomes|) + " 个用户")
    case Some(t) => ErrorCall(token, "批量操作失败", FailureText(t))
  }

  /** Every registry call a batch makes, in order. */
  function BatchCalls(token: nat, op: BulkOperation, outcomes: seq<ItemOutcome>): seq<Call> {
    [AddCall(token, StartEntry(op, |outcomes|))]
      + ProgressCalls(token, |outcomes|, outcomes)
      + [TerminalCall(token, op, outcomes)]
  }

  function BatchResultOf(outcomes: seq<ItemOutcome>): (r: BatchResult)
    ensures r.Resolved? <==> AllSucceeded(outcomes)
  {
    match FirstFailure(outcomes)
    case None => Resolved
    case Some(t) => Rejected(t)
  }

  function CountAdds(cs: seq<Call>): nat {
    if |cs| == 0 then 0 else CountAdds(cs[..|cs| - 1]) + (if cs[|cs| - 1].AddCall? then 1 else 0)
  }

  function CountTerminals(cs: seq<Call>): nat {
    if |cs| == 0 then 0 else CountTerminals(cs[..|cs| - 1]) + (if IsTerminal(cs[|cs| - 1]) then 1 else 0)
  }

  lemma {:induction false} UpdatesOnly(cs: seq<Call>)
    requires forall k :: 0 <= k < |cs| ==> cs[k].UpdateCall?
    ensures CountAdds(cs) == 0 && CountTerminals(cs) == 0
    decreases |cs|
  {
    if |cs| > 0 {
      UpdatesOnly(cs[..|cs| - 1]);
    }
  }

  lemma {:induction false} CountsAppend(a: seq<Call>, b: seq<Call>)
    ensures CountAdds(a + b) == CountAdds(a) + CountAdds(b)
    ensures CountTerminals(a + b) == CountTerminals(a) + CountTerminals(b)
    decreases |b|
  {
    if |b| > 0 {
      assert (a + b)[..|a + b| - 1] == a + b[..|b| - 1];
      assert (a + b)[|a + b| - 1] == b[|b| - 1];
      CountsAppend(a, b[..|b| - 1]);
    } else {
      assert a + b == a;
    }
  }

  /** One `update` per resolved call, so `|outcomes|` of them when all
      resolve. */
  lemma {:induction false} OneUpdatePerSuccess(token: nat, n: nat, outcomes: seq<ItemOutcome>)
    requires |outcomes| <= n
    ensures |ProgressCalls(token, n, outcomes)| == CountSucceeded(outcomes)
    ensures AllSucceeded(outcomes) ==> CountSucceeded(outcomes) == |outcomes|
    decreases |outcomes|
  {
    if |outcomes| > 0 {
      OneUpdatePerSuccess(token, n, outcomes[..|outcomes| - 1]);
    }
  }

  /** A batch creates exactly one entry, first, ends it exactly once, last,
      and in between only updates it; it updates once per resolved call. */
  lemma BatchProtocol(token: nat, op: BulkOperation, outcomes: seq<ItemOutcome>)
    ensures var cs := BatchCalls(token, op, outcomes);
      && CountAdds(cs) == 1 && cs[0] == AddCall(token, StartEntry(op, |outcomes|))
      && CountTerminals(cs) == 1 && IsTerminal(cs[|cs| - 1])
      && (forall k :: 0 < k < |cs| - 1 ==> cs[k].UpdateCall? && cs[k].token == token)
      && |cs| == CountSucceeded(outcomes) + 2
  {
    var ups := ProgressCalls(token, |outcomes|, outcomes);
    var first := [AddCall(token, StartEntry(op, |outcomes|))];
    var last := [TerminalCall(token, op, outcomes)];
    UpdatesOnly(ups);
    CountsAppend(first, ups);
    CountsAppend(first + ups, last);
    assert CountAdds(first) == 1 by { assert first[..0] == []; }
    assert CountTerminals(first) == 0 by { assert first[..0] == []; }
    assert CountAdds(last) == 0 && CountTerminals(last) == 1 by { assert last[..0] == []; }
    OneUpdatePerSuccess(token, |outcomes|, outcomes);
  }

  /** The entry a batch leaves behind: its start entry after every call
      the batch made on it. */
  function FinalEntry(token: nat, op: BulkOperation, outcomes: seq<ItemOutcome>): Entry {
    Replay(StartEntry(op, |outcomes|), BatchCalls(token, op, outcomes)[1..])
  }

  /** The entry ends `success` exactly when every call resolved and `error`
      otherwise; when a non-empty batch succeeds the last progress it showed
      was 100, and it never went backwards. */
  lemma BatchOutcome(token: nat, op: BulkOperation, outcomes: seq<ItemOutcome>)
    ensures var ups := ProgressCalls(token, |outcomes|, outcomes);
      var e := FinalEntry(token, op, outcomes);
      && (e.status == Success <==> AllSucceeded(outcomes))
      && (e.status == Error <==> !AllSucceeded(outcomes))
      && (forall j, k :: 0 <= j <= k < |ups| ==> ups[j].progress <= ups[k].progress)
      && (AllSucceeded(outcomes) && |outcomes| > 0 ==> e.progress == 100 && ups[|ups| - 1].progress == 100)
  {
    var n := |outcomes|;
    var start := StartEntry(op, n);
    var ups := ProgressCalls(token, n, outcomes);
    FinalEntryShape(token, op, outcomes);
    UpdatesKeepLoading(start, ups);
    BatchProgress(token, n, outcomes);
    if AllSucceeded(outcomes) && n > 0 {
      UpdatesShowLastProgress(start, ups);
    }
  }

  /** The final entry is the terminal call applied to the replayed updates. */
  lemma FinalEntryShape(token: nat, op: BulkOperation, outcomes: seq<ItemOutcome>)
    ensures FinalEntry(token, op, outcomes)
         == Apply(Replay(StartEntry(op, |outcomes|), ProgressCalls(token, |outcomes|, outcomes)), TerminalCall(token, op, outcomes))
  {
    var start := StartEntry(op, |outcomes|);
    var ups := ProgressCalls(token, |outcomes|, outcomes);
    var t := TerminalCall(token, op, outcomes);
    assert BatchCalls(token, op, outcomes)[1..] == ups + [t];
    ReplaySnoc(start, ups, t);
  }

  /** The progress a batch reports never goes backwards and, when every call
      resolved, ends at 100. */
  lemma BatchProgress(token: nat, n: nat, outcomes: seq<ItemOutcome>)
    requires n == |outcomes|
    ensures var ups := ProgressCalls(token, n, outcomes);
      && (forall j, k :: 0 <= j <= k < |ups| ==> ups[j].progress <= ups[k].progress)
      && (AllSucceeded(outcomes) && n > 0 ==> |ups| == n && ups[|ups| - 1].progress == 100)
  {
    ProgressCallsCount(token, n, outcomes);
    CountedProgressMonotone(token, n, CountSucceeded(outcomes));
  }

  lemma ProgressCallsStep(token: nat, n: nat, outcomes: seq<ItemOutcome>, i: nat)
    requires i < |outcomes| <= n
    ensures CountSucceeded(outcomes[..i]) < n
    ensures ProgressCalls(token, n, outcomes[..i + 1])
         == ProgressCalls(token, n, outcomes[..i]) + ItemCalls(token, n, CountSucceeded(outcomes[..i]), outcomes[i])
    ensures CountSucceeded(outcomes[..i + 1]) == CountSucceeded(outcomes[..i]) + (if outcomes[i].Succeeded? then 1 else 0)
  {
    assert outcomes[..i + 1][..i] == outcomes[..i];
  }

  lemma DispatchedStep(op: BulkOperation, ids: seq<int>, i: nat)
    requires i < |ids|
    ensures Dispatched(op, ids[..i + 1]) == Dispatched(op, ids[..i]) + [CallFor(op, ids[i])]
  {
    assert ids[..i + 1][..i] == ids[..i];
  }

  /** The settling of one call after `done` others resolved: a resolved
      call updates the entry, a rejected one leaves the registry alone. */
  method ReportItem(registry: Registry, token: nat, n: nat, done: nat, outcome: ItemOutcome)
    requires registry.Valid() && token in registry.entries && done < n
    modifies registry
    ensures registry.Valid() && registry.nextToken == old(registry.nextToken)
    ensures registry.calls == old(registry.calls) + ItemCalls(token, n, done, outcome)
    ensures registry.entries ==
      old(registry.entries)[token := Replay(old(registry.entries)[token], ItemCalls(token, n, done, outcome))]
  {
    var cs := ItemCalls(token, n, done, outcome);
    if outcome.Succeeded? {
      assert cs == [] + [cs[0]];
      ReplaySnoc(registry.entries[token], [], cs[0]);
      registry.Update(token, Progress(done, n), ProgressText(done, n));
    } else {
      assert registry.entries == registry.entries[token := registry.entries[token]];
    }
  }

  /** One turn of the dispatch loop, stated against the calls and entries
      the loop started from. */
  method ReportStep(registry: Registry, token: nat, n: nat, outcomes: seq<ItemOutcome>, i: nat, done: nat,
                    ghost calls0: seq<Call>, ghost base: map<nat, Entry>, ghost start: Entry)
    returns (done': nat)
    requires registry.Valid() && i < |outcomes| <= n && done == CountSucceeded(outcomes[..i])
    requires registry.calls == calls0 + ProgressCalls(token, n, outcomes[..i])
    requires registry.entries == base[token := Replay(start, ProgressCalls(token, n, outcomes[..i]))]
    modifies registry
    ensures registry.Valid() && registry.nextToken == old(registry.nextToken)
    ensures registry.calls == calls0 + ProgressCalls(token, n, outcomes[..i + 1])
    ensures registry.entries == base[token := Replay(start, ProgressCalls(token, n, outcomes[..i + 1]))]
    ensures done' == CountSucceeded(outcomes[..i + 1])
  {
    ghost var before := ProgressCalls(token, n, outcomes[..i]);
    ghost var item := ItemCalls(token, n, done, outcomes[i]);
    ProgressCallsStep(token, n, outcomes, i);
    ReplayAppend(start, before, item);
    MapUpdateTwice(base, token, Replay(start, before), Replay(Replay(start, before), item));
    ReportItem(registry, token, n, done, outcomes[i]);
    assert registry.calls == calls0 + (before + item);
    done' := if outcomes[i].Succeeded? then done + 1 else done;
  }

  /** The loop of `mutationFn`: one service call per id, in order, and an
      `update` of the entry after each call that resolved, counting the
      calls resolved so far in `done`. */
  method DispatchAll(registry: Registry, token: nat, op: BulkOperation, userIds: seq<int>, outcomes: seq<ItemOutcome>)
    returns (dispatched: seq<ServiceCall>)
    requires registry.Valid() && token in registry.entries
    requires |outcomes| == |userIds|
    modifies registry
    ensures registry.Valid() && registry.nextToken == old(registry.nextToken)
    ensures registry.calls == old(registry.calls) + ProgressCalls(token, |outcomes|, outcomes)
    ensures registry.entries ==
      old(registry.entries)[token := Replay(old(registry.entries)[token], ProgressCalls(token, |outcomes|, outcomes))]
    ensures dispatched == Dispatched(op, userIds)
  {
    var n := |userIds|;
    var start := registry.entries[token];
    dispatched := [];
    var i, done := 0, 0;
    while i < n
      invariant 0 <= i <= n
      invariant done == CountSucceeded(outcomes[..i])
      invariant registry.Valid() && registry.nextToken == old(registry.nextToken)
      invariant registry.calls == old(registry.calls) + ProgressCalls(token, n, outcomes[..i])
      invariant registry.entries == old(registry.entries)[token := Replay(start, ProgressCalls(token, n, outcomes[..i]))]
      invariant dispatched == Dispatched(op, userIds[..i])
    {
      done := ReportStep(registry, token, n, outcomes, i, done, old(registry.calls), old(registry.entries), start);
      DispatchedStep(op, userIds, i);
      dispatched := dispatched + [CallFor(op, userIds[i])];
      i := i + 1;
    }
    assert outcomes[..n] == outcomes;
    assert userIds[..n] == userIds;
  }

  lemma MapUpdateTwice(m: map<nat, Entry>, k: nat, a: Entry, b: Entry)
    ensures m[k := a][k := b] == m[k := b]
  {
  }

  lemma BatchCallsShape(token: nat, op: BulkOperation, outcomes: seq<ItemOutcome>)
    ensures BatchCalls(token, op, outcomes) ==
      [AddCall(token, StartEntry(op, |outcomes|))] + ProgressCalls(token, |outcomes|, outcomes) + [TerminalCall(token, op, outcomes)]
    ensures BatchCalls(token, op, outcomes)[1..] == ProgressCalls(token, |outcomes|, outcomes) + [TerminalCall(token, op, outcomes)]
  {
  }

  /** Appending four call lists does not depend on the grouping. */
  lemma ConcatAssoc(a: seq<Call>, b: seq<Call>, c: seq<Call>, d: seq<Call>)
    ensures a + b + c + d == a + (b + c + d)
  {
  }

  /** The calls of the three steps of a batch add up to the whole batch. */
  lemma BatchCallsCompose(token: nat, op: BulkOperation, outcomes: seq<ItemOutcome>, c0: seq<Call>, c3: seq<Call>)
    requires c3 == c0 + [AddCall(token, StartEntry(op, |outcomes|))] + ProgressCalls(token, |outcomes|, outcomes)
      + [TerminalCall(token, op, outcomes)]
    ensures c3 == c0 + BatchCalls(token, op, outcomes)
  {
    var add, ups, last := AddCall(token, StartEntry(op, |outcomes|)), ProgressCalls(token, |outcomes|, outcomes),
      TerminalCall(token, op, outcomes);
    ConcatAssoc(c0, [add], ups, [last]);
  }

  /** The entry the three steps of a batch leave is the replay of the batch's
      calls after the `add`. */
  lemma BatchEntryCompose(token: nat, op: BulkOperation, outcomes: seq<ItemOutcome>,
                          e0: map<nat, Entry>, e2: map<nat, Entry>, e3: map<nat, Entry>)
    requires e2 == e0[token := StartEntry(op, |outcomes|)][token := Replay(StartEntry(op, |outcomes|), ProgressCalls(token, |outcomes|, outcomes))]
    requires e3 == e2[token := Apply(e2[token], TerminalCall(token, op, outcomes))]
    ensures e3 == e0[token := Replay(StartEntry(op, |outcomes|), BatchCalls(token, op, outcomes)[1..])]
  {
    var start := StartEntry(op, |outcomes|);
    var ups := ProgressCalls(token, |outcomes|, outcomes);
    var last := TerminalCall(token, op, outcomes);
    MapUpdateTwice(e0, token, start, Replay(start, ups));
    MapUpdateTwice(e0, token, Replay(start, ups), Apply(Replay(start, ups), last));
    ReplaySnoc(start, ups, last);
    BatchCallsShape(token, op, outcomes);
  }

  /** The end of `mutationFn` once every call has settled: `complete` when
      all resolved, otherwise `error` with the first failure's message and a
      rejection with it. */
  method Settle(registry: Registry, token: nat, op: BulkOperation, outcomes: seq<ItemOutcome>)
    returns (result: BatchResult)
    requires registry.Valid() && token in registry.entries
    modifies registry
    ensures registry.Valid() && registry.nextToken == old(registry.nextToken)
    ensures registry.calls == old(registry.calls) + [TerminalCall(token, op, outcomes)]
    ensures registry.entries ==
      old(registry.entries)[token := Apply(old(registry.entries)[token], TerminalCall(token, op, outcomes))]
    ensures result == BatchResultOf(outcomes)
  {
    var failure := FirstFailure(outcomes);
    if failure.None? {
      registry.Complete(token, "批量操作完成", "成功" + OperationName(op) + " " + ShowNat(|outcomes|) + " 个用户");
      result := Resolved;
    } else {
      registry.Error(token, "批量操作失败", FailureText(failure.value));
      result := Rejected(failure.value);
    }
  }

  /** `mutationFn`: create the progress entry, dispatch one call per id, let
      each resolved call report its progress, then complete the entry or, if
      any call rejected, mark it failed and reject with the first failure.
      `outcomes[k]` is how the call for `userIds[k]` settles. */
  method RunBatch(registry: Registry, op: BulkOperation, userIds: seq<int>, outcomes: seq<ItemOutcome>)
    returns (progressId: nat, dispatched: seq<ServiceCall>, result: BatchResult)
    requires registry.Valid()
    requires |outcomes| == |userIds|
    modifies registry
    ensures registry.Valid()
    ensures progressId !in old(registry.entries)
    ensures registry.calls == old(registry.calls) + BatchCalls(progressId, op, outcomes)
    ensures registry.entries == old(registry.entries)[progressId := FinalEntry(progressId, op, outcomes)]
    ensures dispatched == Dispatched(op, userIds)
    ensures result == BatchResultOf(outcomes)
  {
    var n := |userIds|;
    var start := StartEntry(op, n);
    ghost var e0, c0 := registry.entries, registry.calls;
    progressId := registry.Add(start);
    dispatched := DispatchAll(registry, progressId, op, userIds, outcomes);
    ghost var e2 := registry.entries;
    result := Settle(registry, progressId, op, outcomes);
    BatchCallsCompose(progressId, op, outcomes, c0, registry.calls);
    BatchEntryCompose(progressId, op, outcomes, e0, e2, registry.entries);
  }

  // ----- the component's state -----------------------------------------------

  /** An entry of the notification centre (`notify.success` /
      `notify.error`): its kind, texts, whether it stays until dismissed, and
      the label of its action button. */
  datatype Notice = Notice(success: bool, title: string, message: string, persistent: bool, actionLabel: string)

  /** The success notice, offering to view the user list. */
  function SuccessNotice(op: BulkOperation, count: nat): (r: Notice)
    ensures r.success && !r.persistent && r.actionLabel == "查看用户列表"
  {
    Notice(true, "批量操作成功", "已成功" + OperationName(op) + " " + ShowNat(count) + " 个用户", false, "查看用户列表")
  }

  /** The error notice: persistent, with a retry action, and the message of
      an `Error` or a fixed text for anything else thrown. */
  function ErrorNotice(t: Thrown): (r: Notice)
    ensures !r.success && r.persistent && r.actionLabel == "重试"
    ensures t.ErrorValue? ==> r.message == t.message
    ensures t.OtherValue? ==> r.message == "操作失败，请稍后重试"
  {
    Notice(false, "批量操作失败", match t case ErrorValue(m) => m case OtherValue => "操作失败，请稍后重试", true, "重试")
  }

  /** The bulk-operations bar: the parent's user list and selection (changed
      only through `onSelectionChange`), the dialog and pending operation, and
      what it has shown and requested. */
  class Panel {
    const users: seq<User>
    var selectedUsers: seq<int>
    var showConfirmDialog: bool
    var pendingOperation: Option<PendingOperation>
    var toasts: seq<Toast>
    var notices: seq<Notice>
    var completions: nat

    constructor (users: seq<User>, selectedUsers: seq<int>)
      ensures this.users == users && this.selectedUsers == selectedUsers
      ensures !showConfirmDialog && pendingOperation == None
      ensures toasts == [] && notices == [] && completions == 0
    {
      this.users := users;
      this.selectedUsers := selectedUsers;
      showConfirmDialog := false;
      pendingOperation := None;
      toasts := [];
      notices := [];
      completions := 0;
    }

    /** `handleSelectAll`. */
    method HandleSelectAll()
      modifies this
      ensures selectedUsers == SelectAllToggled(users, old(selectedUsers))
      ensures showConfirmDialog == old(showConfirmDialog) && pendingOperation == old(pendingOperation)
      ensures toasts == old(toasts) && notices == old(notices) && completions == old(completions)
    {
      if AllSelected(users, selectedUsers) {
        selectedUsers := [];
      } else {
        selectedUsers := Ids(users);
      }
    }

    /** The "cancel selection" button. */
    method ClearSelection()
      modifies this
      ensures selectedUsers == []
      ensures showConfirmDialog == old(showConfirmDialog) && pendingOperation == old(pendingOperation)
      ensures toasts == old(toasts) && notices == old(notices) && completions == old(completions)
    {
      selectedUsers := [];
    }

    /** `handleBulkOperation`: with nothing selected, only a destructive
        toast; otherwise the operation becomes pending and the dialog opens. */
    method HandleBulkOperation(op: BulkOperation)
      modifies this
      ensures selectedUsers == old(selectedUsers) && notices == old(notices) && completions == old(completions)
      ensures |selectedUsers| == 0 ==>
        && toasts == old(toasts) + [SelectFirstToast]
        && showConfirmDialog == old(showConfirmDialog) && pendingOperation == old(pendingOperation)
      ensures |selectedUsers| > 0 ==>
        && toasts == old(toasts)
        && showConfirmDialog && pendingOperation == Some(PendingFor(op, |selectedUsers|))
    {
      if |selectedUsers| == 0 {
        toasts := toasts + [SelectFirstToast];
        return;
      }
      pendingOperation := Some(PendingFor(op, |selectedUsers|));
      showConfirmDialog := true;
    }

    /** `onSuccess`: announce, clear the selection, ask the parent to
        refresh, close the dialog. */
    method OnSuccess(op: BulkOperation, userIds: seq<int>)
      modifies this
      ensures notices == old(notices) + [SuccessNotice(op, |userIds|)]
      ensures selectedUsers == [] && completions == old(completions) + 1
      ensures !showConfirmDialog && pendingOperation == None && toasts == old(toasts)
    {
      notices := notices + [SuccessNotice(op, |userIds|)];
      selectedUsers := [];
      completions := completions + 1;
      showConfirmDialog := false;
      pendingOperation := None;
    }

    /** `onError`: announce and close the dialog; the selection stays. */
    method OnError(t: Thrown)
      modifies this
      ensures notices == old(notices) + [ErrorNotice(t)]
      ensures selectedUsers == old(selectedUsers) && completions == old(completions)
      ensures !showConfirmDialog && pendingOperation == None && toasts == old(toasts)
    {
      notices := notices + [ErrorNotice(t)];
      showConfirmDialog := false;
      pendingOperation := None;
    }

    /** `confirmOperation`: run the pending operation on the current
        selection and settle it through `onSuccess` or `onError`.
        `outcomes[k]` is how the call for the k-th selected id settles. */
    method ConfirmOperation(registry: Registry, outcomes: seq<ItemOutcome>)
      returns (progressId: nat, dispatched: seq<ServiceCall>)
      requires registry.Valid()
      requires |outcomes| == |selectedUsers|
      modifies this, registry
      ensures registry.Valid()
      ensures old(pendingOperation).None? ==>
        && dispatched == [] && registry.calls == old(registry.calls) && registry.entries == old(registry.entries)
        && selectedUsers == old(selectedUsers) && notices == old(notices) && completions == old(completions)
        && pendingOperation == old(pendingOperation) && showConfirmDialog == old(showConfirmDialog)
      ensures old(pendingOperation).Some? ==>
        var op := old(pendingOperation).value.kind;
        && dispatched == Dispatched(op, old(selectedUsers))
        && progressId !in old(registry.entries)
        && registry.calls == old(registry.calls) + BatchCalls(progressId, op, outcomes)
        && registry.entries == old(registry.entries)[progressId := FinalEntry(progressId, op, outcomes)]
        && !showConfirmDialog && pendingOperation == None
        && (AllSucceeded(outcomes) ==>
              selectedUsers == [] && completions == old(completions) + 1 &&
              notices == old(notices) + [SuccessNotice(old(pendingOperation).value.kind, |outcomes|)])
        && (!AllSucceeded(outcomes) ==>
              selectedUsers == old(selectedUsers) && completions == old(completions) &&
              notices == old(notices) + [ErrorNotice(FirstFailure(outcomes).value)])
      ensures toasts == old(toasts)
    {
      progressId, dispatched := 0, [];
      if pendingOperation.None? {
        return;
      }
      var op := pendingOperation.value.kind;
      var ids := selectedUsers;
      var result;
      progressId, dispatched, result := RunBatch(registry, op, ids, outcomes);
      match result {
        case Resolved =>
          OnSuccess(op, ids);
        case Rejected(t) =>
          OnError(t);
      }
    }
  }
}
