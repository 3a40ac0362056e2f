// The contents of profiles.json and the rules that put them in normal form:
// sixteen or more profiles, one per index, ascending, each with a pad map,
// and an active index in [1, 16].
module Profiles {
  import opened Base
  import opened Text
  import opened Settings

  const PROFILE_COUNT: nat := 16

  /** One stored profile; `None` stands for a JSON null. */
  datatype ProfileData = ProfileData(profileIndex: int, name: Option<string>, pads: Option<map<int, PadSettings>>)

  /** The whole store; `profiles` is None for a JSON null list. */
  datatype ProfileStore = ProfileStore(activeProfileIndex: int, profiles: Option<seq<ProfileData>>)

  /** ClampProfile: below 1 becomes 1, above 16 becomes 16. */
  function ClampProfile(v: int): (r: int)
    ensures 1 <= r <= PROFILE_COUNT
    ensures 1 <= v <= PROFILE_COUNT ==> r == v
    ensures v < 1 ==> r == 1
    ensures v > PROFILE_COUNT ==> r == PROFILE_COUNT
  {
    if v < 1 then 1 else if v > PROFILE_COUNT then PROFILE_COUNT else v
  }

  /** The `$"Profile {index:00}"` name. */
  function ProfileName(index: nat): string
  {
    "Profile " + TwoDigits(index)
  }

  /** A profile created to fill a gap: its index, its default name and an empty pad map. */
  function FreshProfile(index: nat): ProfileData
  {
    ProfileData(index, Some(ProfileName(index)), Some(map[]))
  }

  /** The store CreateFreshStore builds: active profile 1 and profiles 1..16 in order. */
  function FreshStore(): ProfileStore
  {
    ProfileStore(1, Some(seq(PROFILE_COUNT, k requires 0 <= k < PROFILE_COUNT => FreshProfile(k + 1))))
  }

  /** CreateFreshStore adds the sixteen profiles one by one. */
  method CreateFreshStore() returns (s: ProfileStore)
    ensures s == FreshStore()
  {
    var ps: seq<ProfileData> := [];
    var i := 1;
    while i <= PROFILE_COUNT
      invariant 1 <= i <= PROFILE_COUNT + 1
      invariant |ps| == i - 1
      invariant forall k :: 0 <= k < |ps| ==> ps[k] == FreshProfile(k + 1)
    {
      ps := ps + [FreshProfile(i)];
      i := i + 1;
    }
    assert ps == ProfilesOf(FreshStore());
    s := ProfileStore(1, Some(ps));
  }

  function ProfilesOf(s: ProfileStore): seq<ProfileData>
  {
    if s.profiles.Some? then s.profiles.value else []
  }

  predicate HasIndex(ps: seq<ProfileData>, i: int)
  {
    exists k :: 0 <= k < |ps| && ps[k].profileIndex == i
  }

  /** The position FirstOrDefault(x => x.ProfileIndex == i) finds. */
  function FirstPos(ps: seq<ProfileData>, i: int): (r: Option<nat>)
    ensures r.Some? <==> HasIndex(ps, i)
    ensures r.Some? ==> r.value < |ps| && ps[r.value].profileIndex == i
    ensures r.Some? ==> forall k :: 0 <= k < r.value ==> ps[k].profileIndex != i
  {
    if ps == [] then None
    else if ps[0].profileIndex == i then Some(0)
    else
      var r := FirstPos(ps[1..], i);
      assert HasIndex(ps, i) ==> HasIndex(ps[1..], i) by {
        if HasIndex(ps, i) {
          var k :| 0 <= k < |ps| && ps[k].profileIndex == i;
          assert ps[1..][k - 1].profileIndex == i;
        }
      }
      if r.Some? then Some(r.value + 1) else None
  }

  /** The first profile with index i. */
  function FirstWith(ps: seq<ProfileData>, i: int): ProfileData
    requires HasIndex(ps, i)
  {
    ps[FirstPos(ps, i).value]
  }

  /** The profiles NormalizeStore adds for the missing indices 1..n, in ascending order. */
  function MissingUpTo(ps: seq<ProfileData>, n: nat): (m: seq<ProfileData>)
    ensures forall k :: 0 <= k < |m| ==> 1 <= m[k].profileIndex <= n && m[k] == FreshProfile(m[k].profileIndex)
    ensures forall k :: 0 <= k < |m| ==> !HasIndex(ps, m[k].profileIndex)
  {
    if n == 0 then []
    else MissingUpTo(ps, n - 1) + (if HasIndex(ps, n) then [] else [FreshProfile(n)])
  }

  /** MissingUpTo supplies exactly the absent indices in 1..n. */
  lemma {:induction false} MissingUpToHas(ps: seq<ProfileData>, n: nat, i: int)
    ensures HasIndex(MissingUpTo(ps, n), i) <==> 1 <= i <= n && !HasIndex(ps, i)
  {
    if n > 0 {
      MissingUpToHas(ps, n - 1, i);
      var m0 := MissingUpTo(ps, n - 1);
      if !HasIndex(ps, n) {
        var one := [FreshProfile(n)];
        assert MissingUpTo(ps, n) == m0 + one;
        HasIndexAppend(m0, one, i);
        assert HasIndex(one, i) <==> i == n by {
          if HasIndex(one, i) {
            var k :| 0 <= k < |one| && one[k].profileIndex == i;
          }
          if i == n {
            assert one[0].profileIndex == i;
          }
        }
      } else {
        assert MissingUpTo(ps, n) == m0;
      }
    }
  }

  /** Whether the profile indices are pairwise different. */
  predicate Distinct(ps: seq<ProfileData>)
  {
    forall a, b :: 0 <= a < b < |ps| ==> ps[a].profileIndex != ps[b].profileIndex
  }

  predicate StrictlyAscending(ps: seq<ProfileData>)
  {
    forall a, b :: 0 <= a < b < |ps| ==> ps[a].profileIndex < ps[b].profileIndex
  }

  /**
   * GroupBy(p => p.ProfileIndex).Select(g => g.First()): one profile per
   * index, the first in list order, the groups in order of first occurrence.
   */
  function Dedupe(ps: seq<ProfileData>): (r: seq<ProfileData>)
    decreases |ps|
  {
    if ps == [] then []
    else
      var init := ps[..|ps| - 1];
      if HasIndex(init, ps[|ps| - 1].profileIndex) then Dedupe(init) else Dedupe(init) + [ps[|ps| - 1]]
  }

  /** What Dedupe keeps: distinct indices, the same index set, and for each index its first profile. */
  lemma {:induction false} DedupeProperties(ps: seq<ProfileData>)
    ensures Distinct(Dedupe(ps))
    ensures forall i :: HasIndex(Dedupe(ps), i) <==> HasIndex(ps, i)
    ensures forall k :: 0 <= k < |Dedupe(ps)| ==>
      HasIndex(ps, Dedupe(ps)[k].profileIndex) && Dedupe(ps)[k] == FirstWith(ps, Dedupe(ps)[k].profileIndex)
    decreases |ps|
  {
    if ps != [] {
      var init := ps[..|ps| - 1];
      var last := ps[|ps| - 1];
      assert ps == init + [last];
      DedupeProperties(init);
      var d := Dedupe(init);
      forall i | HasIndex(init, i)
        ensures HasIndex(ps, i) && FirstWith(ps, i) == FirstWith(init, i)
      {
        FirstPosPrefix(init, [last], i);
      }
      forall i | HasIndex(ps, i)
        ensures HasIndex(init, i) || i == last.profileIndex
      {
        var k :| 0 <= k < |ps| && ps[k].profileIndex == i;
        if k < |init| { assert init[k] == ps[k]; }
      }
      if !HasIndex(init, last.profileIndex) {
        var r := d + [last];
        assert Dedupe(ps) == r;
        assert HasIndex(ps, last.profileIndex) by { assert ps[|ps| - 1] == last; }
        forall k | 0 <= k < |init| ensures ps[k].profileIndex != last.profileIndex {
          assert init[k] == ps[k];
        }
        assert FirstWith(ps, last.profileIndex) == last;
        forall i | HasIndex(r, i) ensures HasIndex(ps, i) {
          var k :| 0 <= k < |r| && r[k].profileIndex == i;
          if k < |d| { assert d[k] == r[k]; }
        }
        forall i | HasIndex(ps, i) ensures HasIndex(r, i) {
          if HasIndex(init, i) {
            var k :| 0 <= k < |d| && d[k].profileIndex == i;
            assert r[k] == d[k];
          } else {
            assert r[|d|] == last;
          }
        }
        forall a, b | 0 <= a < b < |r| ensures r[a].profileIndex != r[b].profileIndex {
          if b == |d| {
            assert r[a] == d[a];
            assert HasIndex(init, d[a].profileIndex);
          } else {
            assert r[a] == d[a] && r[b] == d[b];
          }
        }
        forall k | 0 <= k < |r|
          ensures HasIndex(ps, r[k].profileIndex) && r[k] == FirstWith(ps, r[k].profileIndex)
        {
          if k < |d| { assert r[k] == d[k]; }
        }
      } else {
        assert Dedupe(ps) == d;
      }
    }
  }

  /** A prefix that already has index i decides FirstPos. */
  lemma FirstPosPrefix(a: seq<ProfileData>, b: seq<ProfileData>, i: int)
    requires HasIndex(a, i)
    ensures HasIndex(a + b, i) && FirstPos(a + b, i) == FirstPos(a, i)
  {
    var p := FirstPos(a, i).value;
    assert (a + b)[p].profileIndex == i;
    var q := FirstPos(a + b, i).value;
    assert q <= p;
    assert (a + b)[q] == a[q];
    assert forall k :: 0 <= k < q ==> (a + b)[k] == a[k];
  }

  /** Dedupe leaves a list with distinct indices alone. */
  lemma {:induction false} DedupeDistinct(ps: seq<ProfileData>)
    requires Distinct(ps)
    ensures Dedupe(ps) == ps
    decreases |ps|
  {
    if ps != [] {
      var init := ps[..|ps| - 1];
      var last := ps[|ps| - 1];
      assert ps == init + [last];
      DedupeDistinct(init);
      assert !HasIndex(init, last.profileIndex) by {
        forall k | 0 <= k < |init| ensures init[k].profileIndex != last.profileIndex {
          assert init[k] == ps[k];
        }
      }
    }
  }

  /** Inserts p before the first profile whose index is not smaller, so equal keys keep their order. */
  function Insert(p: ProfileData, s: seq<ProfileData>): (r: seq<ProfileData>)
    ensures |r| == |s| + 1
    ensures forall q :: q in r <==> q == p || q in s
    ensures forall i :: HasIndex(r, i) <==> i == p.profileIndex || HasIndex(s, i)
  {
    if s == [] || p.profileIndex <= s[0].profileIndex then
      assert [p] + s == [p] + s;
      InsertHas([p] + s, p, s);
      [p] + s
    else
      var t := [s[0]] + Insert(p, s[1..]);
      assert s == [s[0]] + s[1..];
      InsertHasCons(s[0], s[1..], Insert(p, s[1..]), p);
      t
  }

  /** Index membership of `[p] + s`. */
  lemma InsertHas(r: seq<ProfileData>, p: ProfileData, s: seq<ProfileData>)
    requires r == [p] + s
    ensures forall i :: HasIndex(r, i) <==> i == p.profileIndex || HasIndex(s, i)
  {
    forall i | HasIndex(s, i) ensures HasIndex(r, i) {
      var k :| 0 <= k < |s| && s[k].profileIndex == i;
      assert r[k + 1] == s[k];
    }
    forall i | HasIndex(r, i) && i != p.profileIndex ensures HasIndex(s, i) {
      var k :| 0 <= k < |r| && r[k].profileIndex == i;
      assert s[k - 1] == r[k];
    }
    assert r[0] == p;
  }

  /** Index membership of `[h] + t2` where t2 has t's indices plus p's. */
  lemma InsertHasCons(h: ProfileData, t: seq<ProfileData>, t2: seq<ProfileData>, p: ProfileData)
    requires forall i :: HasIndex(t2, i) <==> i == p.profileIndex || HasIndex(t, i)
    ensures forall i :: HasIndex([h] + t2, i) <==> i == p.profileIndex || HasIndex([h] + t, i)
  {
    InsertHas([h] + t2, h, t2);
    InsertHas([h] + t, h, t);
  }

  /** OrderBy(p => p.ProfileIndex): a stable insertion sort. */
  function SortByIndex(ps: seq<ProfileData>): (r: seq<ProfileData>)
    ensures |r| == |ps|
    ensures forall q :: q in r <==> q in ps
    ensures forall i :: HasIndex(r, i) <==> HasIndex(ps, i)
  {
    if ps == [] then []
    else
      assert ps == [ps[0]] + ps[1..];
      InsertHas(ps, ps[0], ps[1..]);
      Insert(ps[0], SortByIndex(ps[1..]))
  }

  /** Inserting an index the list lacks keeps it strictly ascending. */
  lemma {:induction false} InsertAscending(p: ProfileData, s: seq<ProfileData>)
    requires StrictlyAscending(s) && !HasIndex(s, p.profileIndex)
    ensures StrictlyAscending(Insert(p, s))
    decreases |s|
  {
    if s == [] || p.profileIndex <= s[0].profileIndex {
      var r := [p] + s;
      assert Insert(p, s) == r;
      forall b | 0 < b < |r| ensures p.profileIndex < r[b].profileIndex {
        assert r[b] == s[b - 1];
        if b - 1 > 0 { assert s[0].profileIndex < s[b - 1].profileIndex; }
        assert p.profileIndex != s[b - 1].profileIndex;
      }
    } else {
      var t := s[1..];
      assert StrictlyAscending(t) by {
        forall a, b | 0 <= a < b < |t| ensures t[a].profileIndex < t[b].profileIndex {
          assert t[a] == s[a + 1] && t[b] == s[b + 1];
        }
      }
      assert !HasIndex(t, p.profileIndex) by {
        forall k | 0 <= k < |t| ensures t[k].profileIndex != p.profileIndex {
          assert s[k + 1] == t[k];
        }
      }
      InsertAscending(p, t);
      var it := Insert(p, t);
      var r := [s[0]] + it;
      assert Insert(p, s) == r;
      forall b | 0 < b < |r| ensures s[0].profileIndex < r[b].profileIndex {
        assert r[b] == it[b - 1];
        assert it[b - 1] in it;
        if it[b - 1] != p {
          var q := it[b - 1];
          assert q in t;
          var k :| 0 <= k < |t| && t[k] == q;
          assert s[k + 1] == q;
        }
      }
      forall a, b | 0 < a < b < |r| ensures r[a].profileIndex < r[b].profileIndex {
        assert r[a] == it[a - 1] && r[b] == it[b - 1];
      }
    }
  }

  /** Sorting a list with distinct indices gives a strictly ascending one. */
  lemma {:induction false} SortAscending(ps: seq<ProfileData>)
    requires Distinct(ps)
    ensures StrictlyAscending(SortByIndex(ps))
    decreases |ps|
  {
    if ps != [] {
      var t := ps[1..];
      assert Distinct(t) by {
        forall a, b | 0 <= a < b < |t| ensures t[a].profileIndex != t[b].profileIndex {
          assert t[a] == ps[a + 1] && t[b] == ps[b + 1];
        }
      }
      SortAscending(t);
      assert !HasIndex(SortByIndex(t), ps[0].profileIndex) by {
        forall k | 0 <= k < |t| ensures t[k].profileIndex != ps[0].profileIndex {
          assert ps[k + 1] == t[k];
        }
      }
      InsertAscending(ps[0], SortByIndex(t));
    }
  }

  /** Sorting an already ascending list changes nothing. */
  lemma {:induction false} SortSorted(ps: seq<ProfileData>)
    requires StrictlyAscending(ps)
    ensures SortByIndex(ps) == ps
    decreases |ps|
  {
    if ps != [] {
      var t := ps[1..];
      assert StrictlyAscending(t) by {
        forall a, b | 0 <= a < b < |t| ensures t[a].profileIndex < t[b].profileIndex {
          assert t[a] == ps[a + 1] && t[b] == ps[b + 1];
        }
      }
      SortSorted(t);
      if t != [] {
        assert ps[0].profileIndex < t[0].profileIndex by { assert t[0] == ps[1]; }
      }
      assert ps == [ps[0]] + t;
    }
  }

  /** `p.Pads ??= new()`. */
  function WithPads(p: ProfileData): ProfileData
  {
    p.(pads := Some(if p.pads.Some? then p.pads.value else map[]))
  }

  function FillPads(ps: seq<ProfileData>): (r: seq<ProfileData>)
    ensures |r| == |ps|
  {
    seq(|ps|, k requires 0 <= k < |ps| => WithPads(ps[k]))
  }

  /** The store NormalizeStore leaves. */
  function Normalized(s: ProfileStore): ProfileStore
  {
    var ps := ProfilesOf(s);
    ProfileStore(ClampProfile(s.activeProfileIndex),
      Some(FillPads(SortByIndex(Dedupe(ps + MissingUpTo(ps, PROFILE_COUNT))))))
  }

  /** The normal form: a list, ascending indices, all of 1..16, every pad map present, an active index in range. */
  predicate IsNormal(s: ProfileStore)
  {
    && s.profiles.Some?
    && StrictlyAscending(s.profiles.value)
    && (forall i :: 1 <= i <= PROFILE_COUNT ==> HasIndex(s.profiles.value, i))
    && (forall k :: 0 <= k < |s.profiles.value| ==> s.profiles.value[k].pads.Some?)
    && 1 <= s.activeProfileIndex <= PROFILE_COUNT
  }

  /** NormalizeStore, step by step: the gap-filling loop, the dedupe and sort, the pad-map loop and the clamp. */
  method NormalizeStore(s: ProfileStore) returns (r: ProfileStore)
    ensures r == Normalized(s)
  {
    var ps := if s.profiles.Some? then s.profiles.value else [];
    ps := AddMissing(ps);
    ps := SortByIndex(Dedupe(ps));
    ps := FillPadsInPlace(ps);
    r := ProfileStore(ClampProfile(s.activeProfileIndex), Some(ps));
  }

  /** The "ensure 1..16 exist" loop: each absent index gets a fresh profile at the end. */
  method AddMissing(ps0: seq<ProfileData>) returns (ps: seq<ProfileData>)
    ensures ps == ps0 + MissingUpTo(ps0, PROFILE_COUNT)
  {
    ps := ps0;
    var i := 1;
    while i <= PROFILE_COUNT
      invariant 1 <= i <= PROFILE_COUNT + 1
      invariant ps == ps0 + MissingUpTo(ps0, i - 1)
    {
      var found := FirstPos(ps, i);
      AddMissingStep(ps0, i);
      if found.None? {
        ps := ps + [FreshProfile(i)];
      }
      i := i + 1;
    }
  }

  /** One turn of the gap-filling loop: the profiles added so far have smaller indices, so they do not affect the test for i. */
  lemma AddMissingStep(ps0: seq<ProfileData>, i: nat)
    requires i >= 1
    ensures HasIndex(ps0 + MissingUpTo(ps0, i - 1), i) == HasIndex(ps0, i)
    ensures ps0 + MissingUpTo(ps0, i) ==
      ps0 + MissingUpTo(ps0, i - 1) + (if HasIndex(ps0, i) then [] else [FreshProfile(i)])
  {
    var m0 := MissingUpTo(ps0, i - 1);
    var tail := if HasIndex(ps0, i) then [] else [FreshProfile(i)];
    MissingUpToHas(ps0, i - 1, i);
    HasIndexAppend(ps0, m0, i);
    assert MissingUpTo(ps0, i) == m0 + tail;
    assert ps0 + (m0 + tail) == ps0 + m0 + tail;
  }

  /** The `foreach (var p in s.Profiles) p.Pads ??= new()` loop. */
  method FillPadsInPlace(sorted: seq<ProfileData>) returns (ps: seq<ProfileData>)
    ensures ps == FillPads(sorted)
  {
    ps := sorted;
    var k := 0;
    while k < |ps|
      invariant 0 <= k <= |ps| == |sorted|
      invariant forall j :: 0 <= j < k ==> ps[j] == WithPads(sorted[j])
      invariant forall j :: k <= j < |ps| ==> ps[j] == sorted[j]
    {
      ps := ps[k := WithPads(ps[k])];
      k := k + 1;
    }
  }

  lemma HasIndexAppend(a: seq<ProfileData>, b: seq<ProfileData>, i: int)
    ensures HasIndex(a + b, i) <==> HasIndex(a, i) || HasIndex(b, i)
  {
    if HasIndex(a + b, i) {
      var k :| 0 <= k < |a + b| && (a + b)[k].profileIndex == i;
      if k >= |a| { assert b[k - |a|] == (a + b)[k]; }
    }
    if HasIndex(b, i) {
      var k :| 0 <= k < |b| && b[k].profileIndex == i;
      assert (a + b)[k + |a|] == b[k];
    }
    if HasIndex(a, i) {
      var k :| 0 <= k < |a| && a[k].profileIndex == i;
      assert (a + b)[k] == a[k];
    }
  }

  /** FillPads keeps every index where it was. */
  lemma FillPadsIndices(ps: seq<ProfileData>)
    ensures forall k :: 0 <= k < |ps| ==> FillPads(ps)[k].profileIndex == ps[k].profileIndex && FillPads(ps)[k].pads.Some?
    ensures forall i :: HasIndex(FillPads(ps), i) <==> HasIndex(ps, i)
  {
    var r := FillPads(ps);
    forall i | HasIndex(ps, i) ensures HasIndex(r, i) {
      var k :| 0 <= k < |ps| && ps[k].profileIndex == i;
      assert r[k].profileIndex == i;
    }
  }

  /**
   * The first profile with index i in the list plus the gap fillers: the
   * first stored one when the list has the index, otherwise the filler.
   */
  lemma FirstInFilled(ps: seq<ProfileData>, i: int)
    requires HasIndex(ps + MissingUpTo(ps, PROFILE_COUNT), i)
    ensures HasIndex(ps, i) ==> FirstWith(ps + MissingUpTo(ps, PROFILE_COUNT), i) == FirstWith(ps, i)
    ensures !HasIndex(ps, i) ==> 1 <= i <= PROFILE_COUNT && FirstWith(ps + MissingUpTo(ps, PROFILE_COUNT), i) == FreshProfile(i)
  {
    var m := MissingUpTo(ps, PROFILE_COUNT);
    if HasIndex(ps, i) {
      FirstPosPrefix(ps, m, i);
    } else {
      HasIndexAppend(ps, m, i);
      MissingUpToHas(ps, PROFILE_COUNT, i);
      FirstInFillers(ps, m, i);
    }
  }

  /** When only the fillers have index i, the first profile with it is a filler, so a fresh profile. */
  lemma FirstInFillers(ps: seq<ProfileData>, m: seq<ProfileData>, i: int)
    requires 1 <= i && !HasIndex(ps, i) && HasIndex(ps + m, i)
    requires forall k :: 0 <= k < |m| ==> 1 <= m[k].profileIndex && m[k] == FreshProfile(m[k].profileIndex)
    ensures FirstWith(ps + m, i) == FreshProfile(i)
  {
    var e := ps + m;
    var q := FirstPos(e, i).value;
    assert q >= |ps|;
    assert e[q] == m[q - |ps|];
  }

  /**
   * NormalizeStore's result: ascending indices; the indices of the input
   * plus all of 1..16 and nothing else, so out-of-range profiles survive;
   * for each index the first stored profile with it (its pad map filled in),
   * or a fresh profile; every pad map present; the active index clamped.
   */
  lemma NormalizedShape(s: ProfileStore)
    ensures Normalized(s).profiles.Some?
    ensures StrictlyAscending(Normalized(s).profiles.value)
    ensures forall i :: HasIndex(Normalized(s).profiles.value, i) <==> HasIndex(ProfilesOf(s), i) || 1 <= i <= PROFILE_COUNT
    ensures forall k :: 0 <= k < |Normalized(s).profiles.value| ==>
      var p := Normalized(s).profiles.value[k];
      p.pads.Some? &&
      (HasIndex(ProfilesOf(s), p.profileIndex) ==> p == WithPads(FirstWith(ProfilesOf(s), p.profileIndex))) &&
      (!HasIndex(ProfilesOf(s), p.profileIndex) ==> 1 <= p.profileIndex <= PROFILE_COUNT && p == FreshProfile(p.profileIndex))
    ensures Normalized(s).activeProfileIndex == ClampProfile(s.activeProfileIndex)
  {
    var ps := ProfilesOf(s);
    var m := MissingUpTo(ps, PROFILE_COUNT);
    var e := ps + m;
    var d := Dedupe(e);
    var sorted := SortByIndex(d);
    var r := FillPads(sorted);
    assert Normalized(s).profiles.value == r;
    DedupeProperties(e);
    SortAscending(d);
    FillPadsIndices(sorted);
    assert StrictlyAscending(r) by {
      forall a, b | 0 <= a < b < |r| ensures r[a].profileIndex < r[b].profileIndex {
        assert r[a].profileIndex == sorted[a].profileIndex && r[b].profileIndex == sorted[b].profileIndex;
      }
    }
    forall i ensures HasIndex(r, i) <==> HasIndex(ps, i) || 1 <= i <= PROFILE_COUNT {
      HasIndexAppend(ps, m, i);
      MissingUpToHas(ps, PROFILE_COUNT, i);
    }
    forall k | 0 <= k < |r|
      ensures (HasIndex(ps, r[k].profileIndex) ==> r[k] == WithPads(FirstWith(ps, r[k].profileIndex)))
      ensures (!HasIndex(ps, r[k].profileIndex) ==> 1 <= r[k].profileIndex <= PROFILE_COUNT && r[k] == FreshProfile(r[k].profileIndex))
    {
      var q := sorted[k];
      assert r[k] == WithPads(q);
      assert q in d;
      var j :| 0 <= j < |d| && d[j] == q;
      FirstInFilled(ps, q.profileIndex);
    }
  }

  /** Every profile carries a pad map, so WithPads is the identity on it. */
  lemma FillPadsPresent(ps: seq<ProfileData>)
    requires forall k :: 0 <= k < |ps| ==> ps[k].pads.Some?
    ensures FillPads(ps) == ps
  {
  }

  /** No index of 1..n is missing, so no filler is added. */
  lemma {:induction false} MissingNone(ps: seq<ProfileData>, n: nat)
    requires forall i :: 1 <= i <= n ==> HasIndex(ps, i)
    ensures MissingUpTo(ps, n) == []
  {
    if n > 0 {
      MissingNone(ps, n - 1);
      assert HasIndex(ps, n);
    }
  }

  /** A store in normal form is left exactly as it is. */
  lemma NormalIdentity(s: ProfileStore)
    requires IsNormal(s)
    ensures Normalized(s) == s
  {
    var ps := s.profiles.value;
    MissingNone(ps, PROFILE_COUNT);
    assert ps + [] == ps;
    DedupeDistinct(ps);
    SortSorted(ps);
    FillPadsPresent(ps);
  }

  /** Whatever it starts from, NormalizeStore ends in normal form. */
  lemma NormalizedIsNormal(s: ProfileStore)
    ensures IsNormal(Normalized(s))
  {
    NormalizedShape(s);
  }

  /** NormalizeStore is idempotent. */
  lemma NormalizedIdempotent(s: ProfileStore)
    ensures Normalized(Normalized(s)) == Normalized(s)
  {
    NormalizedIsNormal(s);
    NormalIdentity(Normalized(s));
  }

  /**
   * A fresh store lists profiles 1..16 in order, each with its default name
   * and an empty pad map, so it is already in normal form (see
   * IndexedInOrderNormal).
   */
  lemma FreshStoreShape(k: int)
    ensures 1 <= FreshStore().activeProfileIndex <= PROFILE_COUNT
    ensures |FreshStore().profiles.value| == PROFILE_COUNT
    ensures 0 <= k < PROFILE_COUNT ==>
      && FreshStore().profiles.value[k].profileIndex == k + 1
      && FreshStore().profiles.value[k].name == Some(ProfileName(k + 1))
      && FreshStore().profiles.value[k].pads == Some(map[])
  {
    if 0 <= k < PROFILE_COUNT {
      assert FreshStore().profiles.value[k] == FreshProfile(k + 1);
    }
  }

  /** Profiles 1..16 in order, every pad map present: with active profile 1 that is the normal form. */
  lemma IndexedInOrderNormal(ps: seq<ProfileData>)
    requires |ps| == PROFILE_COUNT
    requires forall k :: 0 <= k < |ps| ==> ps[k].profileIndex == k + 1 && ps[k].pads.Some?
    ensures IsNormal(ProfileStore(1, Some(ps))) && Normalized(ProfileStore(1, Some(ps))) == ProfileStore(1, Some(ps))
  {
    forall i | 1 <= i <= PROFILE_COUNT ensures HasIndex(ps, i) {
      assert ps[i - 1].profileIndex == i;
    }
    NormalIdentity(ProfileStore(1, Some(ps)));
  }

  /** The default names run from "Profile 01" to "Profile 16", always two digits. */
  lemma ProfileNames(i: nat)
    requires 1 <= i <= PROFILE_COUNT
    ensures |ProfileName(i)| == 10 && ProfileName(i)[..8] == "Profile "
    ensures ProfileName(1) == "Profile 01" && ProfileName(16) == "Profile 16"
  {
    assert NatToString(16) == NatToString(1) + [DigitChar(6)];
    if i >= 10 {
      assert NatToString(i) == NatToString(i / 10) + [DigitChar(i % 10)];
    }
  }
}
