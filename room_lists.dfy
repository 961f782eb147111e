/** The per-room user lists held in the server's `rooms` dictionary
    (server/index.js:22) and the username filter that both the join and
    the disconnect handler apply to them (server/index.js:37, 107). */
module RoomLists {

  /** The transport's identifier of one connected socket. */
  type SocketId = string

  /** One `{username, socketId}` record of a room list. */
  datatype Entry = Entry(username: string, socketId: SocketId)

  /** `list.filter((u) => u.username !== name)`: the entries of `list` whose
      username differs from `name`, in their original order. */
  function RemoveName(list: seq<Entry>, name: string): (r: seq<Entry>)
    ensures |r| <= |list|
    ensures forall e :: e in r <==> e in list && e.username != name
  {
    if list == [] then []
    else if list[0].username == name then RemoveName(list[1..], name)
    else [list[0]] + RemoveName(list[1..], name)
  }

  /** The number of entries of `list` that carry the username `name`. */
  function CountName(list: seq<Entry>, name: string): nat
  {
    if list == [] then 0
    else (if list[0].username == name then 1 else 0) + CountName(list[1..], name)
  }

  /** No two entries of the list share a username. */
  predicate DistinctNames(list: seq<Entry>)
  {
    forall i, j :: 0 <= i < j < |list| ==> list[i].username != list[j].username
  }

  /** `a` is obtained from `b` by deleting entries, so the entries of `a`
      appear in `b` in the same relative order. */
  ghost predicate IsSubsequence(a: seq<Entry>, b: seq<Entry>)
    decreases |b|
  {
    a == [] ||
    (b != [] &&
     if a[0] == b[0] then IsSubsequence(a[1..], b[1..]) else IsSubsequence(a, b[1..]))
  }

  /** The filter keeps every entry of another username exactly as often as
      it occurs, and drops every entry of `name`. */
  lemma {:induction false} RemoveNameCounts(list: seq<Entry>, name: string)
    ensures forall e :: multiset(RemoveName(list, name))[e] ==
                        if e.username == name then 0 else multiset(list)[e]
  {
    if list != [] {
      RemoveNameCounts(list[1..], name);
      assert list == [list[0]] + list[1..];
      assert multiset(list) == multiset([list[0]]) + multiset(list[1..]);
      if list[0].username != name {
        var r := RemoveName(list, name);
        assert r == [list[0]] + RemoveName(list[1..], name);
        assert multiset(r) == multiset([list[0]]) + multiset(RemoveName(list[1..], name));
      }
    }
  }

  /** The filter keeps the relative order of the entries it keeps. */
  lemma {:induction false} RemoveNameSubsequence(list: seq<Entry>, name: string)
    ensures IsSubsequence(RemoveName(list, name), list)
  {
    if list != [] {
      RemoveNameSubsequence(list[1..], name);
      var r := RemoveName(list, name);
      if list[0].username == name {
        assert r == RemoveName(list[1..], name);
        if r != [] {
          assert r[0] in r;
          assert r[0] != list[0];
        }
      } else {
        assert r == [list[0]] + RemoveName(list[1..], name);
        assert r[1..] == RemoveName(list[1..], name);
      }
    }
  }

  /** A list starting with `x` has distinct usernames exactly when its tail
      has, and no entry of the tail carries `x`'s username. */
  lemma DistinctNamesCons(list: seq<Entry>)
    requires list != []
    ensures DistinctNames(list) <==>
            DistinctNames(list[1..]) && forall e :: e in list[1..] ==> e.username != list[0].username
  {
    var x, tail := list[0], list[1..];
    if DistinctNames(list) {
      forall i, j | 0 <= i < j < |tail| ensures tail[i].username != tail[j].username {
        assert tail[i] == list[i + 1] && tail[j] == list[j + 1];
      }
      forall e | e in tail ensures e.username != x.username {
        var k :| 0 <= k < |tail| && tail[k] == e;
        assert list[k + 1] == e;
      }
    }
    if DistinctNames(tail) && forall e :: e in tail ==> e.username != x.username {
      forall i, j | 0 <= i < j < |list| ensures list[i].username != list[j].username {
        assert list[j] == tail[j - 1] && list[j] in tail;
        if i > 0 { assert list[i] == tail[i - 1]; }
      }
    }
  }

  /** Filtering a list whose usernames are distinct leaves them distinct. */
  lemma {:induction false} RemoveNameKeepsDistinct(list: seq<Entry>, name: string)
    requires DistinctNames(list)
    ensures DistinctNames(RemoveName(list, name))
  {
    if list != [] {
      var tail := list[1..];
      DistinctNamesCons(list);
      RemoveNameKeepsDistinct(tail, name);
      if list[0].username != name {
        var r := [list[0]] + RemoveName(tail, name);
        assert r[1..] == RemoveName(tail, name);
        DistinctNamesCons(r);
      }
    }
  }

  /** Filtering on `name` removes every entry of `name` and leaves the count
      of every other username as it was. */
  lemma {:induction false} CountNameAfterRemove(list: seq<Entry>, name: string, other: string)
    ensures CountName(RemoveName(list, name), other) ==
            if other == name then 0 else CountName(list, other)
  {
    if list != [] {
      CountNameAfterRemove(list[1..], name, other);
      if list[0].username != name {
        var r := [list[0]] + RemoveName(list[1..], name);
        assert r[0] == list[0] && r[1..] == RemoveName(list[1..], name);
      }
    }
  }

  /** Appending one entry adds one to the count of its username only. */
  lemma {:induction false} CountNameAppend(list: seq<Entry>, e: Entry, name: string)
    ensures CountName(list + [e], name) ==
            CountName(list, name) + if e.username == name then 1 else 0
  {
    if list != [] {
      CountNameAppend(list[1..], e, name);
      assert (list + [e])[1..] == list[1..] + [e];
    }
  }

  /** A username is absent from a list exactly when its count is zero. */
  lemma {:induction false} CountNameZero(list: seq<Entry>, name: string)
    ensures CountName(list, name) == 0 <==> forall e :: e in list ==> e.username != name
  {
    if list != [] {
      CountNameZero(list[1..], name);
      assert forall e :: e in list <==> e == list[0] || e in list[1..];
    }
  }

  /** Every username occurs at most once in the list. */
  ghost predicate AtMostOnce(list: seq<Entry>)
  {
    forall name :: CountName(list, name) <= 1
  }

  /** Distinct usernames, stated pairwise, is the same as every username
      occurring at most once. */
  lemma {:induction false} DistinctNamesIffCount(list: seq<Entry>)
    ensures DistinctNames(list) <==> AtMostOnce(list)
  {
    if list != [] {
      var x, tail := list[0], list[1..];
      DistinctNamesIffCount(tail);
      CountNameZero(tail, x.username);
      DistinctNamesCons(list);
      assert forall name :: CountName(list, name) ==
                            (if x.username == name then 1 else 0) + CountName(tail, name);
      if DistinctNames(list) {
        assert CountName(tail, x.username) == 0;
        forall name ensures CountName(list, name) <= 1 {
          assert CountName(tail, name) <= 1;
        }
      }
      if AtMostOnce(list) {
        assert CountName(tail, x.username) == 0;
        forall name ensures CountName(tail, name) <= 1 {
          assert CountName(list, name) <= 1;
        }
        assert DistinctNames(tail);
        assert forall e :: e in tail ==> e.username != x.username;
        assert DistinctNames(list);
      }
    } else {
      assert forall name :: CountName(list, name) == 0;
    }
  }

  /** The list a join leaves behind, `rooms[room]` filtered on the joiner's
      username and then extended by the joiner's entry: that entry is last,
      it is the only one with that username, every other username keeps its
      count, and distinct usernames stay distinct. */
  lemma JoinedList(list: seq<Entry>, name: string, id: SocketId)
    ensures var r := RemoveName(list, name) + [Entry(name, id)];
            && r[|r| - 1] == Entry(name, id)
            && CountName(r, name) == 1
            && (forall other :: other != name ==> CountName(r, other) == CountName(list, other))
            && (DistinctNames(list) ==> DistinctNames(r))
  {
    var kept := RemoveName(list, name);
    var r := kept + [Entry(name, id)];
    CountNameAppend(kept, Entry(name, id), name);
    CountNameAfterRemove(list, name, name);
    forall other | other != name
      ensures CountName(r, other) == CountName(list, other)
    {
      CountNameAppend(kept, Entry(name, id), other);
      CountNameAfterRemove(list, name, other);
    }
    if DistinctNames(list) {
      RemoveNameKeepsDistinct(list, name);
      forall i, j | 0 <= i < j < |r| ensures r[i].username != r[j].username {
        if j == |r| - 1 {
          assert r[i] == kept[i] && kept[i] in kept;
        } else {
          assert r[i] == kept[i] && r[j] == kept[j];
        }
      }
    }
  }

  /** A filter that finds nothing to remove leaves the list as it was. */
  lemma {:induction false} RemoveNameAbsent(list: seq<Entry>, name: string)
    requires forall e :: e in list ==> e.username != name
    ensures RemoveName(list, name) == list
  {
    if list != [] {
      assert list[0] in list;
      assert forall e :: e in list[1..] ==> e in list;
      RemoveNameAbsent(list[1..], name);
      assert list == [list[0]] + list[1..];
    }
  }

  /** Filtering twice on the same username is filtering once. */
  lemma RemoveNameIdempotent(list: seq<Entry>, name: string)
    ensures RemoveName(RemoveName(list, name), name) == RemoveName(list, name)
  {
    RemoveNameAbsent(RemoveName(list, name), name);
  }
}
