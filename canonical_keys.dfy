/**
 * The unique names under which ingredient lists, cuisines and recipes are stored as
 * vertices. GraphRecipeStore.js and RecipeGraph.js compute them the same way.
 */
module CanonicalKeys {
  import opened JsStrings

  // ---------------------------------------------------------------------------
  // Ingredient keys

  /** A term as it stands in an ingredient key: trimmed, lower-case and free of commas. */
  predicate IsCanonicalTerm(t: string) {
    Trim(t) == t && IsLowerCase(t) && ',' !in t
  }

  lemma TrimmedPiecesAreCanonical(text: string)
    requires IsLowerCase(text)
    ensures forall i :: 0 <= i < |SplitOn(text, ',')| ==> IsCanonicalTerm(Trim(SplitOn(text, ',')[i]))
  {
    var pieces := SplitOn(text, ',');
    forall i | 0 <= i < |pieces| ensures IsCanonicalTerm(Trim(pieces[i])) {
      TrimIdempotent(pieces[i]);
    }
  }

  /**
   * The terms of an ingredient list: the whole text trimmed and lower-cased, split on
   * commas, each piece trimmed.
   */
  function Terms(ingredientsStr: string): (r: seq<string>)
    ensures |r| >= 1
    ensures forall i :: 0 <= i < |r| ==> IsCanonicalTerm(r[i])
  {
    var text := ToLower(Trim(ingredientsStr));
    ToLowerIsLowerCase(Trim(ingredientsStr));
    TrimmedPiecesAreCanonical(text);
    var pieces := SplitOn(text, ',');
    seq(|pieces|, i requires 0 <= i < |pieces| => Trim(pieces[i]))
  }

  /** The order Array.prototype.sort gives. */
  predicate Sorted(s: seq<string>) {
    forall i, j :: 0 <= i < j < |s| ==> LexLe(s[i], s[j])
  }

  function Insert(x: string, s: seq<string>): seq<string> {
    if s == [] then [x]
    else if LexLe(x, s[0]) then [x] + s
    else [s[0]] + Insert(x, s[1..])
  }

  /** A reference sort: insertion into a sorted list. */
  function SortStrings(s: seq<string>): seq<string> {
    if s == [] then [] else Insert(s[0], SortStrings(s[1..]))
  }

  lemma {:induction false} InsertPermutes(x: string, s: seq<string>)
    ensures multiset(Insert(x, s)) == multiset(s) + multiset{x}
  {
    if s != [] && !LexLe(x, s[0]) {
      InsertPermutes(x, s[1..]);
      assert s == [s[0]] + s[1..];
    }
  }

  lemma {:induction false} InsertSorted(x: string, s: seq<string>)
    requires Sorted(s)
    ensures Sorted(Insert(x, s))
  {
    if s == [] {
    } else if LexLe(x, s[0]) {
      forall j | 0 < j < |s| ensures LexLe(x, s[j]) {
        LexLeTransitive(x, s[0], s[j]);
      }
    } else {
      LexLeTotal(x, s[0]);
      var t := Insert(x, s[1..]);
      InsertSorted(x, s[1..]);
      InsertPermutes(x, s[1..]);
      forall k | 0 <= k < |t| ensures LexLe(s[0], t[k]) {
        assert t[k] in multiset(t);
        if t[k] != x {
          assert t[k] in multiset(s[1..]);
          var m :| 0 <= m < |s[1..]| && s[1..][m] == t[k];
          assert s[m + 1] == t[k];
        }
      }
    }
  }

  /** The reference sort yields the same terms, in sorted order. */
  lemma {:induction false} SortStringsCorrect(s: seq<string>)
    ensures Sorted(SortStrings(s))
    ensures multiset(SortStrings(s)) == multiset(s)
  {
    if s != [] {
      SortStringsCorrect(s[1..]);
      InsertSorted(s[0], SortStrings(s[1..]));
      InsertPermutes(s[0], SortStrings(s[1..]));
      assert s == [s[0]] + s[1..];
    }
  }

  /** There is only one sorted arrangement of a multiset of strings. */
  lemma {:induction false} SortedUnique(a: seq<string>, b: seq<string>)
    requires Sorted(a) && Sorted(b)
    requires multiset(a) == multiset(b)
    ensures a == b
  {
    assert |a| == |multiset(a)| == |multiset(b)| == |b|;
    if |a| > 0 {
      assert a[0] == b[0] by {
        assert a[0] in multiset(b);
        assert b[0] in multiset(a);
        var j :| 0 <= j < |b| && b[j] == a[0];
        var i :| 0 <= i < |a| && a[i] == b[0];
        LexLeReflexive(a[0]);
        LexLeReflexive(b[0]);
        assert LexLe(a[0], b[0]);
        assert LexLe(b[0], a[0]);
        LexLeAntisymmetric(a[0], b[0]);
      }
      assert multiset(a[1..]) == multiset(b[1..]) by {
        assert a == [a[0]] + a[1..];
        assert b == [b[0]] + b[1..];
        assert multiset(a) == multiset{a[0]} + multiset(a[1..]);
        assert multiset(b) == multiset{b[0]} + multiset(b[1..]);
        assert multiset(a[1..]) == multiset(a) - multiset{a[0]};
        assert multiset(b[1..]) == multiset(b) - multiset{b[0]};
      }
      SortedUnique(a[1..], b[1..]);
      assert a == [a[0]] + a[1..];
      assert b == [b[0]] + b[1..];
    }
  }

  /** The unique name of an ingredient list: its terms sorted and joined with commas. */
  function IngredientKey(ingredientsStr: string): string {
    Join(SortStrings(Terms(ingredientsStr)), ',')
  }

  /** Exchanges two neighbouring slots. */
  method SwapAdjacent(a: array<string>, j: int)
    requires 0 < j < a.Length
    modifies a
    ensures a[..] == old(a[..])[j - 1 := old(a[j])][j := old(a[j - 1])]
    ensures multiset(a[..]) == multiset(old(a[..]))
  {
    a[j - 1], a[j] := a[j], a[j - 1];
  }

  /** Sinks slot `i` into the sorted prefix before it. */
  method InsertLast(a: array<string>, i: int)
    requires 0 <= i < a.Length && Sorted(a[..i])
    modifies a
    ensures Sorted(a[..i + 1])
    ensures multiset(a[..]) == multiset(old(a[..]))
  {
    var j := i;
    while j > 0 && !LexLe(a[j - 1], a[j])
      invariant 0 <= j <= i
      invariant forall p, q :: 0 <= p < q <= i && q != j ==> LexLe(a[p], a[q])
      invariant multiset(a[..]) == multiset(old(a[..]))
    {
      LexLeTotal(a[j - 1], a[j]);
      SwapAdjacent(a, j);
      j := j - 1;
    }
    forall p | 0 <= p < j ensures LexLe(a[p], a[j]) {
      if p < j - 1 { LexLeTransitive(a[p], a[j - 1], a[j]); }
    }
  }

  /** Insertion sort in place, as Array.prototype.sort leaves the array. */
  method SortInPlace(a: array<string>)
    modifies a
    ensures Sorted(a[..])
    ensures multiset(a[..]) == multiset(old(a[..]))
  {
    var i := 0;
    while i < a.Length
      invariant 0 <= i <= a.Length
      invariant Sorted(a[..i])
      invariant multiset(a[..]) == multiset(old(a[..]))
    {
      InsertLast(a, i);
      i := i + 1;
    }
    assert a[..i] == a[..];
  }

  /** The loop of getUniqueIngredientsName that trims every slot in place. */
  method TrimSlots(a: array<string>)
    modifies a
    ensures forall k :: 0 <= k < a.Length ==> a[k] == Trim(old(a[k]))
  {
    for i := 0 to a.Length
      invariant forall k :: 0 <= k < i ==> a[k] == Trim(old(a[k]))
      invariant forall k :: i <= k < a.Length ==> a[k] == old(a[k])
    {
      a[i] := Trim(a[i]);
    }
  }

  /**
   * getUniqueIngredientsName: trim and lower-case the text, split it on commas, trim
   * every slot of the array in place, sort the array in place and join it with commas.
   */
  method UniqueIngredientsName(ingredientsStr: string) returns (key: string)
    ensures key == IngredientKey(ingredientsStr)
  {
    var pieces := SplitOn(ToLower(Trim(ingredientsStr)), ',');
    var ingredients := new string[|pieces|](i requires 0 <= i < |pieces| => pieces[i]);
    TrimSlots(ingredients);
    ghost var terms := ingredients[..];
    assert terms == Terms(ingredientsStr) by {
      assert |terms| == |Terms(ingredientsStr)|;
      forall k | 0 <= k < |terms| ensures terms[k] == Terms(ingredientsStr)[k] {
        assert terms[k] == Trim(pieces[k]);
      }
    }
    SortInPlace(ingredients);
    assert ingredients[..] == SortStrings(terms) by {
      SortStringsCorrect(terms);
      SortedUnique(ingredients[..], SortStrings(terms));
    }
    key := Join(ingredients[..], ',');
  }

  lemma {:induction false} JoinEnds(parts: seq<string>, sep: char)
    requires |parts| >= 1
    ensures var j := Join(parts, sep);
      j != [] ==> (j[0] == sep || (parts[0] != [] && j[0] == parts[0][0]))
    ensures var j := Join(parts, sep); var l := parts[|parts| - 1];
      j != [] ==> (j[|j| - 1] == sep || (l != [] && j[|j| - 1] == l[|l| - 1]))
  {
    if |parts| > 1 {
      JoinEnds(parts[1..], sep);
    }
  }

  lemma TrimmedEnds(t: string)
    requires Trim(t) == t && t != []
    ensures !IsWhitespace(t[0]) && !IsWhitespace(t[|t| - 1])
  {
  }

  lemma JoinOfTrimmedIsTrimmed(ts: seq<string>)
    requires |ts| >= 1
    requires Trim(ts[0]) == ts[0] && Trim(ts[|ts| - 1]) == ts[|ts| - 1]
    ensures Trim(Join(ts, ',')) == Join(ts, ',')
  {
    var key := Join(ts, ',');
    JoinEnds(ts, ',');
    var first, last := ts[0], ts[|ts| - 1];
    if first != [] { TrimmedEnds(first); }
    if last != [] { TrimmedEnds(last); }
    assert !IsWhitespace(',');
    assert key == [] || (!IsWhitespace(key[0]) && !IsWhitespace(key[|key| - 1]));
    TrimOfTrimmed(key);
  }

  lemma JoinOfLowerIsLower(ts: seq<string>)
    requires forall i :: 0 <= i < |ts| ==> IsLowerCase(ts[i])
    ensures ToLower(Join(ts, ',')) == Join(ts, ',')
  {
    JoinToLower(ts, ',');
    var lowered := seq(|ts|, i requires 0 <= i < |ts| => ToLower(ts[i]));
    forall i | 0 <= i < |ts| ensures lowered[i] == ts[i] {
      LowerCaseFixed(ts[i]);
    }
    assert lowered == ts;
  }

  /** A join of canonical terms is trimmed, lower-case, and splits back into its terms. */
  lemma JoinOfCanonicalTerms(ts: seq<string>)
    requires |ts| >= 1
    requires forall i :: 0 <= i < |ts| ==> IsCanonicalTerm(ts[i])
    ensures Trim(Join(ts, ',')) == Join(ts, ',')
    ensures ToLower(Join(ts, ',')) == Join(ts, ',')
    ensures SplitOn(Join(ts, ','), ',') == ts
  {
    assert IsCanonicalTerm(ts[0]) && IsCanonicalTerm(ts[|ts| - 1]);
    JoinOfTrimmedIsTrimmed(ts);
    JoinOfLowerIsLower(ts);
    SplitJoin(ts, ',');
  }

  /**
   * The ingredient key depends only on the multiset of terms: listing the same
   * ingredients in another order gives the same key.
   */
  lemma IngredientKeyOrderInvariant(s1: string, s2: string)
    requires multiset(Terms(s1)) == multiset(Terms(s2))
    ensures IngredientKey(s1) == IngredientKey(s2)
  {
    SortStringsCorrect(Terms(s1));
    SortStringsCorrect(Terms(s2));
    SortedUnique(SortStrings(Terms(s1)), SortStrings(Terms(s2)));
  }

  /**
   * Changing the case of an ingredient list or padding it with white space
   * does not change its key.
   */
  lemma IngredientKeyIgnoresCaseAndPadding(w1: string, s: string, w2: string)
    requires AllWhitespace(w1) && AllWhitespace(w2)
    ensures IngredientKey(w1 + s + w2) == IngredientKey(s)
    ensures IngredientKey(ToLower(s)) == IngredientKey(s)
  {
    TrimIgnoresPadding(w1, s, w2);
    TrimToLower(s);
    ToLowerIsLowerCase(Trim(s));
    LowerCaseFixed(ToLower(Trim(s)));
    assert ToLower(Trim(ToLower(s))) == ToLower(Trim(s));
  }

  /** The terms of a join of canonical terms are those terms. */
  lemma TermsOfCanonicalJoin(ts: seq<string>)
    requires |ts| >= 1
    requires forall i :: 0 <= i < |ts| ==> IsCanonicalTerm(ts[i])
    ensures Terms(Join(ts, ',')) == ts
  {
    var key := Join(ts, ',');
    JoinOfCanonicalTerms(ts);
    assert ToLower(Trim(key)) == key;
    var pieces := SplitOn(key, ',');
    assert pieces == ts;
    var terms := Terms(key);
    assert |terms| == |ts|;
    forall i | 0 <= i < |ts| ensures terms[i] == ts[i] {
      assert terms[i] == Trim(pieces[i]);
    }
  }

  /** Sorting keeps every term canonical and keeps at least one term. */
  lemma SortedTermsAreCanonical(s: string)
    ensures |SortStrings(Terms(s))| >= 1
    ensures forall i :: 0 <= i < |SortStrings(Terms(s))| ==> IsCanonicalTerm(SortStrings(Terms(s))[i])
  {
    var terms := Terms(s);
    var ts := SortStrings(terms);
    SortStringsCorrect(terms);
    forall i | 0 <= i < |ts| ensures IsCanonicalTerm(ts[i]) {
      assert ts[i] in multiset(terms);
    }
    assert |ts| == |multiset(ts)| == |terms|;
  }

  /** A stored ingredient key is its own key. */
  lemma IngredientKeyIdempotent(s: string)
    ensures IngredientKey(IngredientKey(s)) == IngredientKey(s)
  {
    var ts := SortStrings(Terms(s));
    var key := Join(ts, ',');
    assert IngredientKey(s) == key;
    assert Terms(key) == ts by {
      SortedTermsAreCanonical(s);
      TermsOfCanonicalJoin(ts);
    }
    assert SortStrings(ts) == ts by {
      SortStringsCorrect(Terms(s));
      SortStringsCorrect(ts);
      SortedUnique(SortStrings(ts), ts);
    }
  }

  // ---------------------------------------------------------------------------
  // Cuisine and recipe keys

  /** The unique name of a cuisine or recipe: the text trimmed, then lower-cased. */
  function NameKey(s: string): (r: string)
    ensures Trim(r) == r
    ensures IsLowerCase(r)
  {
    TrimToLower(Trim(s));
    TrimIdempotent(s);
    ToLowerIsLowerCase(Trim(s));
    ToLower(Trim(s))
  }

  lemma NameKeyIdempotent(s: string)
    ensures NameKey(NameKey(s)) == NameKey(s)
  {
    LowerCaseFixed(NameKey(s));
  }

  /** Changing the case of the text or padding it with white space does not change its key. */
  lemma NameKeyIgnoresCaseAndPadding(w1: string, s: string, w2: string)
    requires AllWhitespace(w1) && AllWhitespace(w2)
    ensures NameKey(w1 + s + w2) == NameKey(s)
    ensures NameKey(ToLower(s)) == NameKey(s)
  {
    TrimIgnoresPadding(w1, s, w2);
    TrimToLower(s);
    ToLowerIsLowerCase(Trim(s));
    LowerCaseFixed(ToLower(Trim(s)));
  }
}
