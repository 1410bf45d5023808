/**
 * The per-map permission cache: allow and deny bit masks computed from a
 * user's direct grant on a map and the grants of the groups the user is in.
 */
module Permissions {
  import opened Wrappers

  /** A permission bit mask (the source's flags fit in 64 bits). */
  type Mask = bv64

  /** A direct per-user grant on one map. */
  datatype Grant = Grant(allow: Mask, deny: Mask)

  /** The union of the allow masks of the group rows, in row order. */
  function OrAll(rows: seq<Mask>): Mask
    decreases |rows|
  {
    if rows == [] then 0 else OrAll(rows[..|rows| - 1]) | rows[|rows| - 1]
  }

  /** The union over one more row of a prefix. */
  lemma OrAllPrefix(rows: seq<Mask>, i: nat)
    requires i < |rows|
    ensures OrAll(rows[..i + 1]) == OrAll(rows[..i]) | rows[i]
  {
    assert rows[..i + 1][..i] == rows[..i];
  }

  /** The group loop of `updateMapPermissions`: every row's bits are OR-ed into `allow`, row by row. */
  method OrInto(allow: Mask, rows: seq<Mask>) returns (r: Mask)
    ensures r == allow | OrAll(rows)
  {
    r := allow;
    for i := 0 to |rows|
      invariant r == allow | OrAll(rows[..i])
    {
      OrAllPrefix(rows, i);
      r := r | rows[i];
    }
    assert rows[..|rows|] == rows;
  }

  /** `m` has every bit of `row`. */
  predicate Covers(m: Mask, row: Mask) {
    row | m == m
  }

  /** Every row's bits are in the union. */
  lemma {:induction false} OrAllCovers(rows: seq<Mask>, i: nat)
    requires i < |rows|
    ensures Covers(OrAll(rows), rows[i])
    decreases |rows|
  {
    var n := |rows| - 1;
    if i < n {
      OrAllCovers(rows[..n], i);
      assert rows[..n][i] == rows[i];
    }
  }

  /** The union has no bit that no row has: it is below every mask covering all rows. */
  lemma {:induction false} OrAllLeast(rows: seq<Mask>, m: Mask)
    requires forall i :: 0 <= i < |rows| ==> Covers(m, rows[i])
    ensures Covers(m, OrAll(rows))
    decreases |rows|
  {
    if rows != [] {
      var n := |rows| - 1;
      forall i | 0 <= i < n ensures Covers(m, rows[..n][i]) {
        assert rows[..n][i] == rows[i];
      }
      OrAllLeast(rows[..n], m);
    }
  }

  /** The order in which the database returns group rows does not matter. */
  lemma OrAllPermutation(a: seq<Mask>, b: seq<Mask>)
    requires multiset(a) == multiset(b)
    ensures OrAll(a) == OrAll(b)
  {
    forall i | 0 <= i < |b| ensures Covers(OrAll(a), b[i]) {
      assert b[i] in multiset(b);
      assert b[i] in a;
      var j :| 0 <= j < |a| && a[j] == b[i];
      OrAllCovers(a, j);
    }
    forall i | 0 <= i < |a| ensures Covers(OrAll(b), a[i]) {
      assert a[i] in multiset(a);
      assert a[i] in b;
      var j :| 0 <= j < |b| && b[j] == a[i];
      OrAllCovers(b, j);
    }
    OrAllLeast(b, OrAll(a));
    OrAllLeast(a, OrAll(b));
  }

  /**
   * The cache `updateMapPermissions` computes: nothing for a guest; otherwise
   * the direct allow (zero without a row) or-ed with every group allow, and
   * the direct deny alone.
   */
  function MapPermissions(dbId: Option<nat>, direct: Option<Grant>, groupRows: seq<Mask>): (r: Grant)
    ensures dbId.None? ==> r == Grant(0, 0)
    ensures r.deny == if dbId.Some? && direct.Some? then direct.value.deny else 0
  {
    if dbId.None? then Grant(0, 0)
    else
      var base := if direct.Some? then direct.value else Grant(0, 0);
      Grant(base.allow | OrAll(groupRows), base.deny)
  }

  /** A user's allow mask holds the direct allow bits and every group's bits. */
  lemma MapPermissionsCovers(dbId: Option<nat>, direct: Option<Grant>, groupRows: seq<Mask>)
    requires dbId.Some?
    ensures direct.Some? ==> Covers(MapPermissions(dbId, direct, groupRows).allow, direct.value.allow)
    ensures forall i :: 0 <= i < |groupRows| ==> Covers(MapPermissions(dbId, direct, groupRows).allow, groupRows[i])
  {
    var base := if direct.Some? then direct.value.allow else 0;
    var groups := OrAll(groupRows);
    assert MapPermissions(dbId, direct, groupRows).allow == base | groups;
    UnionCovers(base, groups);
    forall i | 0 <= i < |groupRows| ensures Covers(base | groups, groupRows[i]) {
      OrAllCovers(groupRows, i);
      CoversTransitive(base | groups, groups, groupRows[i]);
    }
  }

  /** A user's allow mask holds nothing else: any mask with those bits covers it. */
  lemma MapPermissionsLeast(dbId: Option<nat>, direct: Option<Grant>, groupRows: seq<Mask>, m: Mask)
    requires direct.Some? ==> Covers(m, direct.value.allow)
    requires forall i :: 0 <= i < |groupRows| ==> Covers(m, groupRows[i])
    ensures Covers(m, MapPermissions(dbId, direct, groupRows).allow)
  {
    if dbId.Some? {
      var base := if direct.Some? then direct.value.allow else 0;
      var groups := OrAll(groupRows);
      assert MapPermissions(dbId, direct, groupRows).allow == base | groups;
      OrAllLeast(groupRows, m);
      CoversUnion(m, base, groups);
    } else {
      CoversZero(m);
    }
  }

  lemma CoversZero(m: Mask)
    ensures Covers(m, 0)
  {
  }

  lemma UnionCovers(a: Mask, b: Mask)
    ensures Covers(a | b, a) && Covers(a | b, b)
  {
  }

  lemma CoversTransitive(a: Mask, b: Mask, c: Mask)
    requires Covers(a, b) && Covers(b, c)
    ensures Covers(a, c)
  {
  }

  lemma CoversUnion(m: Mask, a: Mask, b: Mask)
    requires Covers(m, a) && Covers(m, b)
    ensures Covers(m, a | b)
  {
  }

  /** ASCII lower-casing, as `str.lower` does on the permission names in use. */
  function Lower(s: string): (r: string)
    ensures |r| == |s|
    ensures forall i :: 0 <= i < |s| ==> r[i] == LowerChar(s[i])
  {
    seq(|s|, i requires 0 <= i < |s| => LowerChar(s[i]))
  }

  function LowerChar(ch: char): char {
    if 'A' <= ch <= 'Z' then (ch as int - 'A' as int + 'a' as int) as char else ch
  }

  /** `permissionByName` without its error message: the named flag, case-insensitively. */
  function PermissionByName(table: map<string, Mask>, perm: string): (r: Option<Mask>)
    ensures r.Some? <==> Lower(perm) in table
    ensures r.Some? ==> r.value == table[Lower(perm)]
  {
    var key := Lower(perm);
    if key in table then Some(table[key]) else None
  }

  /** Lookup ignores the case of the name it is given. */
  lemma PermissionByNameIgnoresCase(table: map<string, Mask>, perm: string)
    ensures PermissionByName(table, Lower(perm)) == PermissionByName(table, perm)
  {
    assert Lower(Lower(perm)) == Lower(perm);
  }
}
