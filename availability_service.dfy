/**
  * The availability monitor of UsuariosDisponiblesService.kt: every snapshot of
  * the `users` collection is folded over the set `notifiedUsers`, so that a user
  * is announced once when their `available` flag turns true and may be announced
  * again only after the flag has been seen false.
  */
module AvailabilityService {
  import opened Wrappers

  /** One child of a `users` snapshot as the service reads it; `None` is a missing or null value. */
  datatype UserSnapshot = UserSnapshot(key: Option<string>, available: Option<bool>, name: Option<string>)

  /** A toast the service shows; `userId` names the child that caused it (it is not part of the text). */
  datatype Announcement = Announcement(userId: string, text: string)

  const UnknownUserName := "Usuario desconocido"

  /** `available`, read as a Boolean, with `false` when missing. */
  function Estado(c: UserSnapshot): bool {
    c.available.GetOr(false)
  }

  /** `name`, with "Usuario desconocido" when missing. */
  function Nombre(c: UserSnapshot): string {
    c.name.GetOr(UnknownUserName)
  }

  /** The text of the toast for a user who became available. */
  function AvailableText(userName: string): string {
    userName + " está ahora disponible"
  }

  // ---------------------------------------------------------------------------
  // Specification: the loop body and the fold over a snapshot

  /** The set after one child has been processed. */
  function Step(notified: set<string>, c: UserSnapshot): set<string> {
    match c.key
    case None => notified
    case Some(id) =>
      if Estado(c) && id !in notified then notified + {id}
      else if !Estado(c) then notified - {id}
      else notified
  }

  /** The toasts shown while one child is processed. */
  function StepToasts(notified: set<string>, c: UserSnapshot): seq<Announcement> {
    match c.key
    case None => []
    case Some(id) =>
      if Estado(c) && id !in notified then [Announcement(id, AvailableText(Nombre(c)))] else []
  }

  /** The set after the children of `s` have been processed in order, starting from `notified`. */
  function After(notified: set<string>, s: seq<UserSnapshot>): set<string>
    decreases |s|
  {
    if s == [] then notified else Step(After(notified, s[..|s| - 1]), s[|s| - 1])
  }

  /** The toasts shown, in order, while the children of `s` are processed. */
  function Announced(notified: set<string>, s: seq<UserSnapshot>): seq<Announcement>
    decreases |s|
  {
    if s == [] then []
    else Announced(notified, s[..|s| - 1]) + StepToasts(After(notified, s[..|s| - 1]), s[|s| - 1])
  }

  /** The keys of the children of `s`. */
  ghost function Keys(s: seq<UserSnapshot>): set<string> {
    set i | 0 <= i < |s| && s[i].key.Some? :: s[i].key.value
  }

  /** The keys of the children of `s` whose `available` flag reads as `flag`. */
  ghost function KeysWith(s: seq<UserSnapshot>, flag: bool): set<string> {
    set i | 0 <= i < |s| && s[i].key.Some? && Estado(s[i]) == flag :: s[i].key.value
  }

  /** No key occurs twice among the children (the database keys its children uniquely). */
  ghost predicate DistinctKeys(s: seq<UserSnapshot>) {
    forall i, j :: 0 <= i < j < |s| && s[i].key.Some? ==> s[i].key != s[j].key
  }

  /** No user is announced twice. */
  ghost predicate OncePerUser(ts: seq<Announcement>) {
    forall i, j :: 0 <= i < j < |ts| ==> ts[i].userId != ts[j].userId
  }

  ghost function AnnouncedIds(ts: seq<Announcement>): set<string> {
    set t | t in ts :: t.userId
  }

  // ---------------------------------------------------------------------------
  // The service's mutable state

  class AvailabilityMonitor {
    var notifiedUsers: set<string>

    constructor ()
      ensures notifiedUsers == {}
    {
      notifiedUsers := {};
    }

    /** `onDataChange`: processes every child of the snapshot in order and returns the toasts shown. */
    method OnDataChange(snapshot: seq<UserSnapshot>) returns (toasts: seq<Announcement>)
      modifies this
      ensures notifiedUsers == After(old(notifiedUsers), snapshot)
      ensures toasts == Announced(old(notifiedUsers), snapshot)
    {
      toasts := [];
      for i := 0 to |snapshot|
        invariant notifiedUsers == After(old(notifiedUsers), snapshot[..i])
        invariant toasts == Announced(old(notifiedUsers), snapshot[..i])
      {
        assert snapshot[..i + 1][..i] == snapshot[..i];
        var userSnapshot := snapshot[i];
        if userSnapshot.key.None? {
          continue;
        }
        var userId := userSnapshot.key.value;
        var estado := userSnapshot.available.GetOr(false);
        var nombre := userSnapshot.name.GetOr(UnknownUserName);
        if estado && userId !in notifiedUsers {
          toasts := toasts + [Announcement(userId, AvailableText(nombre))];
          notifiedUsers := notifiedUsers + {userId};
        } else if !estado {
          notifiedUsers := notifiedUsers - {userId};
        }
      }
      assert snapshot[..|snapshot|] == snapshot;
    }
  }

  // ---------------------------------------------------------------------------
  // Properties of the fold

  lemma KeysSnoc(s: seq<UserSnapshot>)
    requires s != []
    ensures Keys(s) == Keys(s[..|s| - 1]) + (if s[|s| - 1].key.Some? then {s[|s| - 1].key.value} else {})
    ensures forall flag :: KeysWith(s, flag) == KeysWith(s[..|s| - 1], flag) +
              (if s[|s| - 1].key.Some? && Estado(s[|s| - 1]) == flag then {s[|s| - 1].key.value} else {})
  {
    var p, c := s[..|s| - 1], s[|s| - 1];
    forall i | 0 <= i < |p| ensures p[i] == s[i] { }
  }

  lemma DistinctKeysPrefix(s: seq<UserSnapshot>)
    requires s != [] && DistinctKeys(s)
    ensures DistinctKeys(s[..|s| - 1])
    ensures s[|s| - 1].key.Some? ==> s[|s| - 1].key.value !in Keys(s[..|s| - 1])
  {
    var p := s[..|s| - 1];
    forall i, j | 0 <= i < j < |p| && p[i].key.Some? ensures p[i].key != p[j].key {
      assert p[i] == s[i] && p[j] == s[j];
    }
  }

  /** Users absent from the snapshot keep their previous membership. */
  lemma {:induction false} AfterFrame(notified: set<string>, s: seq<UserSnapshot>, k: string)
    requires k !in Keys(s)
    ensures k in After(notified, s) <==> k in notified
    decreases |s|
  {
    if s != [] {
      KeysSnoc(s);
      AfterFrame(notified, s[..|s| - 1], k);
    }
  }

  /**
    * After a snapshot, the set is the old one without the users seen unavailable
    * and with every user seen available.
    */
  lemma {:induction false} AfterClosedForm(notified: set<string>, s: seq<UserSnapshot>)
    requires DistinctKeys(s)
    ensures After(notified, s) == (notified - KeysWith(s, false)) + KeysWith(s, true)
    decreases |s|
  {
    if s != [] {
      KeysSnoc(s);
      DistinctKeysPrefix(s);
      AfterClosedForm(notified, s[..|s| - 1]);
    }
  }

  /** Every keyed user of the snapshot is notified afterwards exactly when its flag is true. */
  lemma MembershipAfterSnapshot(notified: set<string>, s: seq<UserSnapshot>, i: int)
    requires DistinctKeys(s)
    requires 0 <= i < |s| && s[i].key.Some?
    ensures s[i].key.value in After(notified, s) <==> Estado(s[i])
  {
    AfterClosedForm(notified, s);
    var k := s[i].key.value;
    if Estado(s[i]) {
      assert k in KeysWith(s, true);
    } else {
      assert k in KeysWith(s, false);
    }
  }

  /**
    * The toasts of one snapshot announce exactly the users that are available in it
    * and were not yet notified, each of them once.
    */
  lemma {:induction false} AnnouncedExactlyNewlyAvailable(notified: set<string>, s: seq<UserSnapshot>)
    requires DistinctKeys(s)
    ensures OncePerUser(Announced(notified, s))
    ensures AnnouncedIds(Announced(notified, s)) == KeysWith(s, true) - notified
    ensures AnnouncedIds(Announced(notified, s)) <= Keys(s)
    decreases |s|
  {
    if s != [] {
      var p, c := s[..|s| - 1], s[|s| - 1];
      KeysSnoc(s);
      DistinctKeysPrefix(s);
      AnnouncedExactlyNewlyAvailable(notified, p);
      var before := Announced(notified, p);
      var step := StepToasts(After(notified, p), c);
      assert Announced(notified, s) == before + step;
      if c.key.Some? {
        AfterFrame(notified, p, c.key.value);
      }
      assert AnnouncedIds(before + step) == AnnouncedIds(before) + AnnouncedIds(step);
      assert forall t :: t in step ==> t.userId !in AnnouncedIds(before);
    }
  }

  /** Every toast names a child of the snapshot that is available, with "Usuario desconocido" for a missing name. */
  lemma {:induction false} AnnouncementText(notified: set<string>, s: seq<UserSnapshot>, t: Announcement)
    requires t in Announced(notified, s)
    ensures exists i :: 0 <= i < |s| && s[i].key == Some(t.userId) && Estado(s[i])
                        && t.text == AvailableText(s[i].name.GetOr(UnknownUserName))
    decreases |s|
  {
    var p, c := s[..|s| - 1], s[|s| - 1];
    if t in Announced(notified, p) {
      AnnouncementText(notified, p, t);
      var i :| 0 <= i < |p| && p[i].key == Some(t.userId) && Estado(p[i])
               && t.text == AvailableText(p[i].name.GetOr(UnknownUserName));
      assert p[i] == s[i];
    } else {
      assert s[|s| - 1] == c;
    }
  }

  /** Children with a null key change neither the set nor the toasts, wherever they stand. */
  lemma {:induction false} NullKeySkipped(notified: set<string>, p: seq<UserSnapshot>, c: UserSnapshot, q: seq<UserSnapshot>)
    requires c.key.None?
    ensures After(notified, p + [c] + q) == After(notified, p + q)
    ensures Announced(notified, p + [c] + q) == Announced(notified, p + q)
    decreases |q|
  {
    if q == [] {
      assert (p + [c] + q)[..|p + [c] + q| - 1] == p;
      assert p + q == p;
    } else {
      var q' := q[..|q| - 1];
      assert (p + [c] + q)[..|p + [c] + q| - 1] == p + [c] + q';
      assert (p + q)[..|p + q| - 1] == p + q';
      NullKeySkipped(notified, p, c, q');
    }
  }

  lemma AnnouncedIdsEmpty(ts: seq<Announcement>)
    ensures AnnouncedIds(ts) == {} <==> ts == []
  {
    if ts != [] {
      assert ts[0] in ts;
      assert ts[0].userId in AnnouncedIds(ts);
    }
  }

  /** Processing the same snapshot again shows no toast and leaves the set as it was. */
  lemma ReprocessingIsQuiet(notified: set<string>, s: seq<UserSnapshot>)
    requires DistinctKeys(s)
    ensures After(After(notified, s), s) == After(notified, s)
    ensures Announced(After(notified, s), s) == []
  {
    var once := After(notified, s);
    AfterClosedForm(notified, s);
    AfterClosedForm(once, s);
    AnnouncedExactlyNewlyAvailable(once, s);
    AnnouncedIdsEmpty(Announced(once, s));
    assert KeysWith(s, true) * KeysWith(s, false) == {} by {
      forall k | k in KeysWith(s, true) ensures k !in KeysWith(s, false) {
        var i :| 0 <= i < |s| && s[i].key.Some? && Estado(s[i]) && s[i].key.value == k;
        forall j | 0 <= j < |s| && s[j].key == Some(k) ensures Estado(s[j]) {
          assert !(i < j) && !(j < i);
        }
      }
    }
  }
}
