/**
 * The decisions the patients list view makes: which patients the search text
 * keeps, and who may delete a patient. Case folding is ASCII-only.
 */
module PatientsList {
  import opened Types
  import opened Collections

  /** Folds one ASCII upper-case letter to lower case; every other character is kept. */
  function LowerChar(c: char): char {
    if 'A' <= c <= 'Z' then (c as int + 32) as char else c
  }

  /** `toLowerCase()` on ASCII text. */
  function Lower(s: string): (r: string)
    ensures |r| == |s|
    ensures forall i :: 0 <= i < |s| ==> r[i] == LowerChar(s[i])
  {
    if s == [] then [] else [LowerChar(s[0])] + Lower(s[1..])
  }

  /** Folding twice is folding once. */
  lemma LowerIdempotent(s: string)
    ensures Lower(Lower(s)) == Lower(s)
  {
    assert forall i :: 0 <= i < |s| ==> Lower(Lower(s))[i] == Lower(s)[i];
  }

  /** `n` occurs in `h` starting at position `i`. */
  predicate OccursAt(h: string, n: string, i: int) {
    0 <= i && i + |n| <= |h| && h[i..i + |n|] == n
  }

  /** `h.includes(n)`: tries each starting position from the left. */
  function Includes(h: string, n: string): bool
    decreases |h|
  {
    if |n| > |h| then false
    else if h[..|n|] == n then true
    else Includes(h[1..], n)
  }

  /** `Includes` holds exactly when the needle occurs at some position. */
  lemma {:induction false} IncludesIff(h: string, n: string)
    ensures Includes(h, n) <==> exists i :: OccursAt(h, n, i)
    decreases |h|
  {
    if |n| > |h| {
      assert forall i :: !OccursAt(h, n, i);
    } else if h[..|n|] == n {
      assert OccursAt(h, n, 0);
    } else {
      IncludesIff(h[1..], n);
      assert !OccursAt(h, n, 0);
      forall i | OccursAt(h[1..], n, i) ensures OccursAt(h, n, i + 1) {
        assert h[1..][i..i + |n|] == h[i + 1..i + 1 + |n|];
      }
      forall i | OccursAt(h, n, i) ensures OccursAt(h[1..], n, i - 1) {
        assert i != 0;
        assert h[1..][i - 1..i - 1 + |n|] == h[i..i + |n|];
      }
    }
  }

  /** The text a patient is searched by: first name, last name, phone and email, space-joined. */
  function SearchText(p: Patient): string {
    p.firstName + " " + p.lastName + " " + p.phone + " " + p.email
  }

  /** The search keeps a patient iff its folded search text contains the folded query. */
  predicate Matches(p: Patient, query: string) {
    Includes(Lower(SearchText(p)), Lower(query))
  }

  /** The test the search applies to each patient. */
  function SearchPredicate(query: string): Patient -> bool {
    (p: Patient) => Matches(p, query)
  }

  /** `filteredPatients`: the patients the search keeps, in list order. */
  function FilterPatients(ps: seq<Patient>, query: string): (r: seq<Patient>)
    ensures forall p :: p in r <==> p in ps && Matches(p, query)
    ensures forall p :: multiset(r)[p] == if Matches(p, query) then multiset(ps)[p] else 0
    ensures IsSubsequence(r, ps)
  {
    FilterIsSubsequence(ps, SearchPredicate(query));
    FilterCount(ps, SearchPredicate(query));
    Filter(ps, SearchPredicate(query))
  }

  /** A needle found in the folded middle piece of a text is found in the whole folded text. */
  lemma MiddleHit(a: string, seg: string, b: string, n: string)
    requires Includes(Lower(seg), n)
    ensures Includes(Lower(a + seg + b), n)
  {
    var h := a + seg + b;
    IncludesIff(Lower(seg), n);
    var i :| OccursAt(Lower(seg), n, i);
    forall j | 0 <= j < |n| ensures Lower(h)[|a| + i + j] == n[j] {
      assert h[|a| + i + j] == seg[i + j];
      assert Lower(seg)[i + j] == Lower(seg)[i..i + |n|][j];
    }
    assert Lower(h)[|a| + i..|a| + i + |n|] == n;
    assert OccursAt(Lower(h), n, |a| + i);
    IncludesIff(Lower(h), n);
  }

  /** A query found in a piece of a patient's search text keeps the patient. */
  lemma PieceHitMatches(p: Patient, query: string, a: string, piece: string, b: string)
    requires SearchText(p) == a + piece + b
    requires Includes(Lower(piece), Lower(query))
    ensures Matches(p, query)
  {
    MiddleHit(a, piece, b, Lower(query));
  }

  /** The search text, split around each of its four fields. */
  lemma SearchTextSplits(p: Patient)
    ensures var f, l, ph, e := p.firstName, p.lastName, p.phone, p.email;
      && SearchText(p) == [] + f + (" " + l + " " + ph + " " + e)
      && SearchText(p) == (f + " ") + l + (" " + ph + " " + e)
      && SearchText(p) == (f + " " + l + " ") + ph + (" " + e)
      && SearchText(p) == (f + " " + l + " " + ph + " ") + e + []
  {
  }

  /** A query found in the first name, last name, phone or email alone keeps the patient. */
  lemma FieldHitMatches(p: Patient, query: string)
    requires || Includes(Lower(p.firstName), Lower(query)) || Includes(Lower(p.lastName), Lower(query))
             || Includes(Lower(p.phone), Lower(query)) || Includes(Lower(p.email), Lower(query))
    ensures Matches(p, query)
  {
    var f, l, ph, e := p.firstName, p.lastName, p.phone, p.email;
    SearchTextSplits(p);
    if Includes(Lower(f), Lower(query)) {
      PieceHitMatches(p, query, [], f, " " + l + " " + ph + " " + e);
    } else if Includes(Lower(l), Lower(query)) {
      PieceHitMatches(p, query, f + " ", l, " " + ph + " " + e);
    } else if Includes(Lower(ph), Lower(query)) {
      PieceHitMatches(p, query, f + " " + l + " ", ph, " " + e);
    } else {
      PieceHitMatches(p, query, f + " " + l + " " + ph + " ", e, []);
    }
  }

  /** The empty query keeps every patient, in the original order. */
  lemma EmptyQueryKeepsAll(ps: seq<Patient>)
    ensures FilterPatients(ps, "") == ps
  {
    forall p | p in ps ensures SearchPredicate("")(p) {
      assert Lower(SearchText(p))[..0] == [];
    }
    FilterKeepsAll(ps, SearchPredicate(""));
  }

  /** Searching the result again with the same query changes nothing. */
  lemma SearchIdempotent(ps: seq<Patient>, query: string)
    ensures FilterPatients(FilterPatients(ps, query), query) == FilterPatients(ps, query)
  {
    FilterIdempotent(ps, SearchPredicate(query));
  }

  /** The case of the query does not matter. */
  lemma SearchCaseInsensitive(ps: seq<Patient>, query: string)
    ensures FilterPatients(ps, Lower(query)) == FilterPatients(ps, query)
  {
    LowerIdempotent(query);
    FilterCongruent(ps, SearchPredicate(Lower(query)), SearchPredicate(query));
  }

  /** `canDelete`: only a logged-in admin may delete a patient. */
  predicate CanDeletePatient(user: Option<User>) {
    user.Some? && user.value.role == "admin"
  }

  /** Deleting is allowed iff the user's role reads back as the declared role `admin`. */
  lemma CanDeletePatientIffAdmin(user: Option<User>)
    ensures CanDeletePatient(user) <==> user.Some? && ParseRole(user.value.role) == Some(Admin)
  {
  }
}
