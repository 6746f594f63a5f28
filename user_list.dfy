/**
  * The user list screen of ListaUsuariosActivity.kt: the list of available users
  * rebuilt from every snapshot of `users`, the "just connected" toast and the
  * list adapter's getters.
  */
module UserList {
  import opened Wrappers
  import opened Users

  /** One child of a `users` snapshot as this screen reads it; `None` is a missing or null value. */
  datatype UserRecord = UserRecord(
    key: Option<string>,
    name: Option<string>,
    email: Option<string>,
    imageUrl: Option<string>,
    status: Option<string>)

  const Available := "available"
  const Offline := "offline"

  /** The `User` built from a child: missing text fields become "", a missing status "offline". */
  function BuildUser(c: UserRecord): (u: User)
    ensures u.userId == c.key.GetOr("") && u.nombre == c.name.GetOr("")
    ensures u.email == c.email.GetOr("") && u.imageUrl == c.imageUrl.GetOr("")
    ensures u.status == c.status.GetOr(Offline)
  {
    NewUser(c.key.GetOr(""), c.name.GetOr(""), c.email.GetOr(""), c.imageUrl.GetOr(""), c.status.GetOr(Offline))
  }

  /** The loop's test: not the signed-in user (`currentUid`, `None` when signed out) and available. */
  predicate Listed(c: UserRecord, currentUid: Option<string>) {
    c.key != currentUid && BuildUser(c).status == Available
  }

  /** The list rebuilt from snapshot `s`: the listed children, as users, in snapshot order. */
  function Filtered(s: seq<UserRecord>, currentUid: Option<string>): seq<User>
    decreases |s|
  {
    if s == [] then []
    else
      Filtered(s[..|s| - 1], currentUid)
      + (if Listed(s[|s| - 1], currentUid) then [BuildUser(s[|s| - 1])] else [])
  }

  /** The positions of the listed children of `s`, in increasing order. */
  ghost function SelectedIndices(s: seq<UserRecord>, currentUid: Option<string>): seq<int>
    decreases |s|
  {
    if s == [] then []
    else SelectedIndices(s[..|s| - 1], currentUid) + (if Listed(s[|s| - 1], currentUid) then [|s| - 1] else [])
  }

  /**
    * `r` consists of the users built from the children of `s` at positions `idx`,
    * which increase strictly and are exactly the positions of the listed children.
    */
  ghost predicate IsOrderedSelection(s: seq<UserRecord>, currentUid: Option<string>, r: seq<User>, idx: seq<int>) {
    && |idx| == |r|
    && (forall j :: 0 <= j < |idx| ==> 0 <= idx[j] < |s| && r[j] == BuildUser(s[idx[j]]))
    && (forall j, j' :: 0 <= j < j' < |idx| ==> idx[j] < idx[j'])
    && (forall i :: 0 <= i < |s| ==> (Listed(s[i], currentUid) <==> i in idx))
  }

  /** The positions of the listed children, as a set. */
  ghost function ListedPositions(s: seq<UserRecord>, currentUid: Option<string>): set<int> {
    set i | 0 <= i < |s| && Listed(s[i], currentUid)
  }

  class UserListScreen {
    /** `usersList`, the data behind the list view. */
    var usersList: seq<User>

    constructor ()
      ensures usersList == []
    {
      usersList := [];
    }

    /** `onDataChange` of `loadUsers`: clears the list and appends every listed child in order. */
    method OnDataChange(snapshot: seq<UserRecord>, currentUid: Option<string>)
      modifies this
      ensures usersList == Filtered(snapshot, currentUid)
      ensures GetCount() == |ListedPositions(snapshot, currentUid)|
    {
      usersList := [];
      for i := 0 to |snapshot|
        invariant usersList == Filtered(snapshot[..i], currentUid)
      {
        assert snapshot[..i + 1][..i] == snapshot[..i];
        var userSnapshot := snapshot[i];
        if userSnapshot.key != currentUid {
          var user := BuildUser(userSnapshot);
          if user.status == Available {
            usersList := usersList + [user];
          }
        }
      }
      assert snapshot[..|snapshot|] == snapshot;
      CountAfterRebuild(snapshot, currentUid);
    }

    /** `UserAdapter.getCount`. */
    function GetCount(): nat
      reads this
    {
      |usersList|
    }

    /** `UserAdapter.getItem`; the list view asks only for positions below `getCount()`. */
    function GetItem(position: int): User
      reads this
      requires 0 <= position < GetCount()
    {
      usersList[position]
    }

    /** `UserAdapter.getItemId`: the position itself. */
    function GetItemId(position: int): int {
      position
    }

    /** The item click: the id of the selected user, passed on to the detail screen. */
    function SelectedUserId(position: int): string
      reads this
      requires 0 <= position < GetCount()
    {
      GetItem(position).userId
    }
  }

  /**
    * The `onChildChanged` toast: shown for another user whose new status is "available" and
    * whose name is present, which is exactly a named child that the list rebuild keeps.
    */
  function JustConnectedToast(c: UserRecord, currentUid: Option<string>): (t: Option<string>)
    ensures t.Some? <==> Listed(c, currentUid) && c.name.Some?
    ensures t.Some? ==> t.value == c.name.value + " acaba de conectarse"
  {
    if c.key != currentUid && c.status == Some(Available) then
      match c.name
      case Some(n) => Some(n + " acaba de conectarse")
      case None => None
    else None
  }

  // ---------------------------------------------------------------------------
  // Properties

  /** The rebuilt list is the ordered selection of the listed children of the snapshot. */
  lemma {:induction false} FilteredIsOrderedSelection(s: seq<UserRecord>, currentUid: Option<string>)
    ensures IsOrderedSelection(s, currentUid, Filtered(s, currentUid), SelectedIndices(s, currentUid))
    decreases |s|
  {
    if s != [] {
      var p := s[..|s| - 1];
      FilteredIsOrderedSelection(p, currentUid);
      var idx, r := SelectedIndices(p, currentUid), Filtered(p, currentUid);
      forall j | 0 <= j < |idx| ensures s[idx[j]] == p[idx[j]] { }
      forall i | 0 <= i < |p| ensures s[i] == p[i] { }
    }
  }

  /** A user is in the rebuilt list exactly when some listed child of the snapshot builds it. */
  lemma FilteredMembership(s: seq<UserRecord>, currentUid: Option<string>, u: User)
    ensures u in Filtered(s, currentUid) <==>
            exists i :: 0 <= i < |s| && Listed(s[i], currentUid) && BuildUser(s[i]) == u
  {
    var r, idx := Filtered(s, currentUid), SelectedIndices(s, currentUid);
    FilteredIsOrderedSelection(s, currentUid);
    if u in r {
      var j :| 0 <= j < |r| && r[j] == u;
      assert idx[j] in idx;
    }
    if exists i :: 0 <= i < |s| && Listed(s[i], currentUid) && BuildUser(s[i]) == u {
      var i :| 0 <= i < |s| && Listed(s[i], currentUid) && BuildUser(s[i]) == u;
      var j :| 0 <= j < |idx| && idx[j] == i;
      assert r[j] == u;
    }
  }

  /** Appending a child adds its position to the listed positions exactly when it is listed. */
  lemma ListedPositionsSnoc(s: seq<UserRecord>, currentUid: Option<string>)
    requires s != []
    ensures ListedPositions(s, currentUid) ==
            ListedPositions(s[..|s| - 1], currentUid) + (if Listed(s[|s| - 1], currentUid) then {|s| - 1} else {})
  {
    var p := s[..|s| - 1];
    forall i | 0 <= i < |p| ensures s[i] == p[i] { }
  }

  /** The adapter's count after a rebuild is the number of listed children of the snapshot. */
  lemma {:induction false} CountAfterRebuild(s: seq<UserRecord>, currentUid: Option<string>)
    ensures |Filtered(s, currentUid)| == |ListedPositions(s, currentUid)|
    decreases |s|
  {
    if s != [] {
      var p := s[..|s| - 1];
      CountAfterRebuild(p, currentUid);
      ListedPositionsSnoc(s, currentUid);
      assert |s| - 1 !in ListedPositions(p, currentUid);
    }
  }

  /** Every user in the list is available, and the signed-in user's own record is never in it. */
  lemma FilteredOnlyOthersAvailable(s: seq<UserRecord>, me: string, u: User)
    requires me != ""
    requires u in Filtered(s, Some(me))
    ensures u.status == Available && u.userId != me
  {
    FilteredMembership(s, Some(me), u);
  }

  /** A child without `status` reads as "offline" and is never listed. */
  lemma MissingStatusNotListed(c: UserRecord, currentUid: Option<string>)
    requires c.status.None?
    ensures BuildUser(c).status == Offline && !Listed(c, currentUid)
  {
  }

  /**
    * After a rebuild, the adapter shows the listed children: `getCount` is their number, the item
    * at each position is the user built from the listed child of that rank, and its id is the position.
    */
  lemma AdapterShowsListedChildren(screen: UserListScreen, s: seq<UserRecord>, currentUid: Option<string>)
    requires screen.usersList == Filtered(s, currentUid)
    ensures screen.GetCount() == |ListedPositions(s, currentUid)| == |SelectedIndices(s, currentUid)|
    ensures forall p :: 0 <= p < screen.GetCount() ==>
              var i := SelectedIndices(s, currentUid)[p];
              0 <= i < |s| && Listed(s[i], currentUid) && screen.GetItem(p) == BuildUser(s[i])
              && screen.GetItemId(p) == p
  {
    CountAfterRebuild(s, currentUid);
    FilteredIsOrderedSelection(s, currentUid);
    var idx := SelectedIndices(s, currentUid);
    forall p | 0 <= p < screen.GetCount() ensures Listed(s[idx[p]], currentUid) {
      assert idx[p] in idx;
    }
  }

  /**
    * The id a click passes on to the detail screen is the key of a listed child; for a
    * signed-in user with a non-empty id it is never that user's own id.
    */
  lemma SelectedUserIsListed(screen: UserListScreen, s: seq<UserRecord>, currentUid: Option<string>, position: int)
    requires screen.usersList == Filtered(s, currentUid)
    requires 0 <= position < screen.GetCount()
    ensures exists i :: 0 <= i < |s| && Listed(s[i], currentUid) && screen.SelectedUserId(position) == s[i].key.GetOr("")
    ensures currentUid.Some? && currentUid.value != "" ==> screen.SelectedUserId(position) != currentUid.value
  {
    AdapterShowsListedChildren(screen, s, currentUid);
    var i := SelectedIndices(s, currentUid)[position];
    var c := s[i];
    assert Listed(c, currentUid) && screen.GetItem(position) == BuildUser(c);
    assert screen.SelectedUserId(position) == c.key.GetOr("");
    if currentUid.Some? && currentUid.value != "" {
      assert c.key != currentUid;
    }
  }
}
