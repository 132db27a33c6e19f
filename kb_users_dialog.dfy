/** The members dialog of a knowledge base: the add-member form, the badge
    each permission is shown with, and the rules that protect the owner row
    from being changed or removed. */
module KnowledgeBaseUsersDialog {
  import opened Types

  // ----- permissions ---------------------------------------------------------

  /** The badge variants the dialog can ask for. */
  datatype BadgeVariant = Default | Secondary | Destructive | Outline | Success | Warning

  /** `getPermissionColor`. */
  function PermissionColor(p: PermissionType): BadgeVariant {
    match p
    case Owner => Success
    case Admin => Warning
    case Editor => Default
    case Viewer => Secondary
  }

  /** Each permission has a badge of its own, and none of them is shown as
      destructive or outlined. */
  lemma PermissionColorDistinguishes(p: PermissionType, q: PermissionType)
    ensures PermissionColor(p) == PermissionColor(q) ==> p == q
    ensures PermissionColor(p) != Destructive && PermissionColor(p) != Outline
    ensures PermissionColor(p) == Success <==> p == Owner
  {
  }

  /** The label shown inside the badge. */
  function PermissionLabel(p: PermissionType): string {
    match p
    case Owner => "所有者"
    case Admin => "管理员"
    case Editor => "编辑者"
    case Viewer => "查看者"
  }

  /** The labels tell the permissions apart. */
  lemma PermissionLabelDistinguishes(p: PermissionType, q: PermissionType)
    ensures PermissionLabel(p) == PermissionLabel(q) ==> p == q
  {
    if p != q {
      assert PermissionLabel(p)[0] != PermissionLabel(q)[0];
    }
  }

  /** The items of both permission selects, in the order they are shown. */
  const GrantablePermissions: seq<PermissionType> := [Admin, Editor, Viewer]

  /** Exactly the non-owner permissions can be chosen, each once. */
  lemma GrantableIsAllButOwner(p: PermissionType)
    ensures p in GrantablePermissions <==> p != Owner
    ensures |GrantablePermissions| == 3
    ensures forall i, j :: 0 <= i < j < |GrantablePermissions| ==> GrantablePermissions[i] != GrantablePermissions[j]
  {
  }

  /** The permission select of a member row is enabled. */
  predicate CanChangePermission(u: KnowledgeBaseUser) {
    u.permission != Owner
  }

  /** The remove button of a member row is rendered. */
  predicate CanRemove(u: KnowledgeBaseUser) {
    u.permission != Owner
  }

  // ----- requests to the parent ----------------------------------------------

  /** A call the dialog makes on one of its callbacks. */
  datatype MemberRequest =
    | AddMember(email: string, permission: PermissionType)
    | UpdatePermission(userId: int, permission: PermissionType)
    | RemoveMember(userId: int)

  /** A member row's select reports choice `p`: the call made, if the row's
      select is enabled and offers `p`. */
  function UpdateRequest(u: KnowledgeBaseUser, p: PermissionType): (r: Option<MemberRequest>)
    ensures r.Some? <==> CanChangePermission(u) && p in GrantablePermissions
    ensures r.Some? ==> r.value == UpdatePermission(u.userId, p)
  {
    GrantableIsAllButOwner(p);
    if u.permission != Owner && p != Owner then Some(UpdatePermission(u.userId, p)) else None
  }

  /** A member row's remove button is pressed: the call made, if the button
      is there. */
  function RemoveRequest(u: KnowledgeBaseUser): (r: Option<MemberRequest>)
    ensures r.Some? <==> CanRemove(u)
    ensures r.Some? ==> r.value == RemoveMember(u.userId)
  {
    if u.permission != Owner then Some(RemoveMember(u.userId)) else None
  }

  /** No request a member row can make touches an owner or grants ownership:
      whichever row of the knowledge base and whichever choice, an update or
      removal that reaches the parent names a non-owner member, and an update
      never carries OWNER. */
  lemma OwnerIsProtected(kb: KnowledgeBaseDetail, k: nat, p: PermissionType)
    requires k < |kb.users|
    ensures var u := kb.users[k];
      && (UpdateRequest(u, p).Some? ==> u.permission != Owner && UpdateRequest(u, p).value.permission != Owner)
      && (RemoveRequest(u).Some? ==> u.permission != Owner)
      && (u.permission == Owner ==> UpdateRequest(u, p).None? && RemoveRequest(u).None?)
  {
  }

  // ----- the add-member form -------------------------------------------------

  /** The `newUserEmail` / `newUserPermission` state. */
  datatype AddForm = AddForm(email: string, permission: PermissionType)

  /** The form the dialog starts with. */
  function InitialForm(): (f: AddForm)
    ensures f.email == "" && f.permission == Viewer
  {
    AddForm("", Viewer)
  }

  /** What `handleAddUser` does when `onAddUser` resolves (`resolves`) or
      rejects: the calls it makes and the form it leaves. */
  function AddUser(f: AddForm, resolves: bool): (r: (seq<MemberRequest>, AddForm))
    ensures f.email == "" ==> r == ([], f)
    ensures f.email != "" ==> r.0 == [AddMember(f.email, f.permission)]
    ensures f.email != "" && resolves ==> r.1 == InitialForm()
    ensures !resolves ==> r.1 == f
  {
    if f.email == "" then ([], f)
    else if resolves then ([AddMember(f.email, f.permission)], InitialForm())
    else ([AddMember(f.email, f.permission)], f)
  }

  /** A second press right after a successful add sends nothing: the form
      was emptied. A failed add can be retried and sends the same request. */
  lemma AddUserTwice(f: AddForm, again: bool)
    ensures AddUser(AddUser(f, true).1, again).0 == []
    ensures AddUser(AddUser(f, false).1, again).0 == AddUser(f, false).0
  {
  }

  /** Every permission the form can hold is grantable, and every add request
      it sends carries a grantable permission and a non-empty email. */
  lemma AddKeepsGrantable(f: AddForm, resolves: bool)
    requires f.permission in GrantablePermissions
    ensures AddUser(f, resolves).1.permission in GrantablePermissions
    ensures forall k :: 0 <= k < |AddUser(f, resolves).0| ==>
      AddUser(f, resolves).0[k].permission in GrantablePermissions && AddUser(f, resolves).0[k].email != ""
  {
  }

  /** The dialog's add-member form and the calls it has made. */
  class UsersDialog {
    var newUserEmail: string
    var newUserPermission: PermissionType
    var requests: seq<MemberRequest>

    function Form(): AddForm
      reads this
    {
      AddForm(newUserEmail, newUserPermission)
    }

    /** The permission chosen is one the select offers. */
    ghost predicate Valid()
      reads this
    {
      newUserPermission in GrantablePermissions
    }

    constructor ()
      ensures Valid() && Form() == InitialForm() && requests == []
    {
      newUserEmail := "";
      newUserPermission := Viewer;
      requests := [];
    }

    /** Typing in the email input. */
    method SetEmail(email: string)
      requires Valid()
      modifies this
      ensures Valid() && Form() == old(Form()).(email := email) && requests == old(requests)
    {
      newUserEmail := email;
    }

    /** Choosing in the permission select, which only offers the grantable
        permissions. */
    method ChoosePermission(p: PermissionType)
      requires Valid() && p in GrantablePermissions
      modifies this
      ensures Valid() && Form() == old(Form()).(permission := p) && requests == old(requests)
    {
      newUserPermission := p;
    }

    /** `handleAddUser`; `resolves` is how `onAddUser` settles. */
    method HandleAddUser(resolves: bool)
      requires Valid()
      modifies this
      ensures Valid()
      ensures requests == old(requests) + AddUser(old(Form()), resolves).0
      ensures Form() == AddUser(old(Form()), resolves).1
    {
      if newUserEmail == "" {
        return;
      }
      requests := requests + [AddMember(newUserEmail, newUserPermission)];
      if resolves {
        newUserEmail := "";
        newUserPermission := Viewer;
      }
    }

    /** A member row's select reports `p`. */
    method ChangePermission(u: KnowledgeBaseUser, p: PermissionType)
      modifies this
      ensures Form() == old(Form())
      ensures requests == old(requests) + (match UpdateRequest(u, p) case Some(r) => [r] case None => [])
    {
      var r := UpdateRequest(u, p);
      if r.Some? {
        requests := requests + [r.value];
      }
    }

    /** A member row's remove button is pressed. */
    method Remove(u: KnowledgeBaseUser)
      modifies this
      ensures Form() == old(Form())
      ensures requests == old(requests) + (match RemoveRequest(u) case Some(r) => [r] case None => [])
    {
      var r := RemoveRequest(u);
      if r.Some? {
        requests := requests + [r.value];
      }
    }
  }
}
