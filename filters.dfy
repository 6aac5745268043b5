/** The reservation filter of the dashboard sidebar (exibir_filtros): a
    guest-name mask, a unit mask and a check-in date-range mask applied one
    after the other to a copy of the reservations table. */
module Filters {
  import opened Seqs
  import opened Store

  /** ASCII lowercasing of one character. */
  function Lower(c: char): (l: char)
    ensures !('A' <= l <= 'Z')
    ensures ('a' <= l <= 'z') <==> ('a' <= c <= 'z' || 'A' <= c <= 'Z')
  {
    if 'A' <= c <= 'Z' then (c as int - 'A' as int + 'a' as int) as char else c
  }

  /** Lowercasing twice is lowercasing once. */
  lemma LowerIdempotent(c: char)
    ensures Lower(Lower(c)) == Lower(c)
  {
  }

  /** Lowercasing keeps the length and leaves no ASCII upper-case letter. */
  function LowerString(s: string): (l: string)
    ensures |l| == |s|
    ensures forall i :: 0 <= i < |l| ==> !('A' <= l[i] <= 'Z')
  {
    seq(|s|, i requires 0 <= i < |s| => Lower(s[i]))
  }

  lemma LowerStringIdempotent(s: string)
    ensures LowerString(LowerString(s)) == LowerString(s)
  {
    forall i | 0 <= i < |s| ensures LowerString(LowerString(s))[i] == LowerString(s)[i] {
      LowerIdempotent(s[i]);
    }
  }

  /** `pattern` appears in `text` starting at position `i`. */
  predicate OccursAt(pattern: string, text: string, i: int)
  {
    0 <= i && i + |pattern| <= |text| && text[i..i + |pattern|] == pattern
  }

  predicate IsSubstring(pattern: string, text: string)
  {
    exists i :: 0 <= i <= |text| - |pattern| && OccursAt(pattern, text, i)
  }

  /** Case-insensitive substring test of the guest-name mask. */
  predicate ContainsIgnoreCase(text: string, pattern: string)
  {
    IsSubstring(LowerString(pattern), LowerString(text))
  }

  /** An exact substring is also a case-insensitive one. */
  lemma ExactSubstringMatches(text: string, pattern: string)
    requires IsSubstring(pattern, text)
    ensures ContainsIgnoreCase(text, pattern)
  {
    var i :| 0 <= i <= |text| - |pattern| && OccursAt(pattern, text, i);
    var lt, lp := LowerString(text), LowerString(pattern);
    forall k | 0 <= k < |pattern| ensures lt[i..i + |pattern|][k] == lp[k] {
      assert text[i + k] == pattern[k];
    }
    assert OccursAt(lp, lt, i);
  }

  /** The name mask does not depend on case: lowercasing the guest name or the
      pattern first gives the same answer. */
  lemma MatchIgnoresCase(text: string, pattern: string)
    ensures ContainsIgnoreCase(LowerString(text), LowerString(pattern)) == ContainsIgnoreCase(text, pattern)
  {
    LowerStringIdempotent(text);
    LowerStringIdempotent(pattern);
  }

  /** The conjunction of the active masks, stated on one row: the name mask only
      for a non-empty name, the unit mask only for a unit above 0, and the
      check-in range always, both ends included. */
  predicate Matches(r: Reservation, name: string, unit: int, from: int, to: int)
  {
    && (name != [] ==> ContainsIgnoreCase(r.guest, name))
    && (unit > 0 ==> r.unit == unit)
    && from <= r.checkIn <= to
  }

  /** The three successive selections of exibir_filtros. The table is passed by
      value, so the store's own table is never changed. */
  function FilterReservations(rows: seq<Reservation>, name: string, unit: int, from: int, to: int)
    : (r: seq<Reservation>)
    ensures forall x :: multiset(r)[x] == if Matches(x, name, unit, from, to) then multiset(rows)[x] else 0
    ensures forall x :: x in r <==> x in rows && Matches(x, name, unit, from, to)
    ensures forall i :: 0 <= i < |r| ==> Matches(r[i], name, unit, from, to)
    ensures IsSubsequence(r, rows)
    ensures from > to ==> r == []
  {
    var byName := if name != [] then Filter(rows, (x: Reservation) => ContainsIgnoreCase(x.guest, name)) else rows;
    var byUnit := if unit > 0 then Filter(byName, (x: Reservation) => x.unit == unit) else byName;
    var byDate := Filter(byUnit, (x: Reservation) => from <= x.checkIn <= to);
    ChainIsConjunction(rows, byName, byUnit, byDate, name, unit, from, to);
    FilterIsSubsequence(rows, (x: Reservation) => Matches(x, name, unit, from, to));
    byDate
  }

  /** The chain of masks is the single mask of their conjunction. */
  lemma ChainIsConjunction(rows: seq<Reservation>, byName: seq<Reservation>, byUnit: seq<Reservation>,
                           byDate: seq<Reservation>, name: string, unit: int, from: int, to: int)
    requires byName == if name != [] then Filter(rows, (x: Reservation) => ContainsIgnoreCase(x.guest, name)) else rows
    requires byUnit == if unit > 0 then Filter(byName, (x: Reservation) => x.unit == unit) else byName
    requires byDate == Filter(byUnit, (x: Reservation) => from <= x.checkIn <= to)
    ensures byDate == Filter(rows, (x: Reservation) => Matches(x, name, unit, from, to))
  {
    var nameMask := (x: Reservation) => name != [] ==> ContainsIgnoreCase(x.guest, name);
    var unitMask := (x: Reservation) => unit > 0 ==> x.unit == unit;
    var dateMask := (x: Reservation) => from <= x.checkIn <= to;
    var nameUnit := (x: Reservation) => nameMask(x) && unitMask(x);
    var all := (x: Reservation) => Matches(x, name, unit, from, to);
    if name != [] {
      FilterSameMask(rows, (x: Reservation) => ContainsIgnoreCase(x.guest, name), nameMask);
    } else {
      FilterKeepsAll(rows, nameMask);
    }
    assert byName == Filter(rows, nameMask);
    if unit > 0 {
      FilterSameMask(byName, (x: Reservation) => x.unit == unit, unitMask);
    } else {
      FilterKeepsAll(byName, unitMask);
    }
    assert byUnit == Filter(byName, unitMask);
    FilterFuse(rows, nameMask, unitMask, nameUnit);
    FilterFuse(rows, nameUnit, dateMask, all);
  }

  /** With no name and unit 0 only the date range applies, so when every
      check-in lies in the range the whole table is returned. */
  lemma NoFiltersKeepAllInRange(rows: seq<Reservation>, from: int, to: int)
    requires forall i :: 0 <= i < |rows| ==> from <= rows[i].checkIn <= to
    ensures FilterReservations(rows, "", 0, from, to) == rows
  {
    FilterKeepsAll(rows, (x: Reservation) => from <= x.checkIn <= to);
  }

  /** The name example: "ana" matches "Ana Silva". */
  lemma NameMatchExample()
    ensures ContainsIgnoreCase("Ana Silva", "ana")
  {
    var pattern, text := LowerString("ana"), LowerString("Ana Silva");
    assert pattern == "ana";
    assert text[0] == 'a' && text[1] == 'n' && text[2] == 'a';
    assert text[0..3] == pattern;
    assert OccursAt(pattern, text, 0);
  }

  /** The name example: "ana" does not match "Bruno". */
  lemma NameMismatchExample()
    ensures !ContainsIgnoreCase("Bruno", "ana")
  {
    var pattern, text := LowerString("ana"), LowerString("Bruno");
    assert |pattern| == 3 && |text| == 5 && pattern[0] == 'a';
    assert text[0] == 'b' && text[1] == 'r' && text[2] == 'u';
    forall i | 0 <= i <= 2 ensures !OccursAt(pattern, text, i) {
      assert text[i..i + 3][0] == text[i];
    }
  }
}
