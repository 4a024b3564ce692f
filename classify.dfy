/**
  Classification of a transaction by its category text: case-insensitive
  substring search for the revenue keyword and for the expense keywords.
  Case folding is modelled for ASCII letters.
 */
module Classify {


  function LowerChar(c: char): char
  {
    if 'A' <= c <= 'Z' then (c as int - 'A' as int + 'a' as int) as char else c
  }

  /** The text with every upper-case letter replaced by its lower-case one. */
  function Lower(s: string): (r: string)
    ensures |r| == |s|
    ensures forall i :: 0 <= i < |s| ==> r[i] == LowerChar(s[i])
  {
    if s == [] then [] else [LowerChar(s[0])] + Lower(s[1..])
  }

  /** Whether `sub` occurs in `s` at position `i`. */
  ghost predicate OccursAt(s: string, sub: string, i: int)
  {
    0 <= i && i + |sub| <= |s| && s[i..i + |sub|] == sub
  }

  /** Substring search, scanning `s` from the left. */
  function Contains(s: string, sub: string): bool
  {
    if |s| < |sub| then false
    else s[..|sub|] == sub || Contains(s[1..], sub)
  }

  /** The scan finds `sub` exactly when `sub` occurs at some position of `s`. */
  lemma {:induction false} ContainsIff(s: string, sub: string)
    ensures Contains(s, sub) <==> exists i :: OccursAt(s, sub, i)
  {
    if |s| >= |sub| && s[..|sub|] == sub {
      assert OccursAt(s, sub, 0);
    } else if |s| >= |sub| {
      ContainsIff(s[1..], sub);
      if Contains(s[1..], sub) {
        var i :| OccursAt(s[1..], sub, i);
        assert s[1..][i..i + |sub|] == s[i + 1..i + 1 + |sub|];
        assert OccursAt(s, sub, i + 1);
      }
      if exists i :: OccursAt(s, sub, i) {
        var i :| OccursAt(s, sub, i);
        assert i > 0;
        assert s[1..][i - 1..i - 1 + |sub|] == s[i..i + |sub|];
        assert OccursAt(s[1..], sub, i - 1);
      }
    }
  }

  /** A keyword with a character that does not occur in `s` is not found in `s`. */
  lemma MissingCharNotContained(s: string, sub: string, k: int)
    requires 0 <= k < |sub| && sub[k] !in s
    ensures !Contains(s, sub)
  {
    ContainsIff(s, sub);
    forall i
      ensures !OccursAt(s, sub, i)
    {
      if 0 <= i && i + |sub| <= |s| {
        assert s[i..i + |sub|][k] == s[i + k];
      }
    }
  }

  /** A category is revenue when its lower-cased text contains "revenue". */
  predicate IsRevenue(category: string)
  {
    Contains(Lower(category), "revenue")
  }

  /** A category is an expense when its lower-cased text contains "expense", "cost" or "supplies". */
  predicate IsExpense(category: string)
  {
    var low := Lower(category);
    Contains(low, "expense") || Contains(low, "cost") || Contains(low, "supplies")
  }

  /** `kw` occurs in `s` at position `i` when letters are compared without regard to case. */
  ghost predicate MatchesIgnoringCase(s: string, kw: string, i: int)
  {
    0 <= i && i + |kw| <= |s| && forall k :: 0 <= k < |kw| ==> LowerChar(s[i + k]) == kw[k]
  }

  lemma MatchesIgnoringCaseIff(s: string, kw: string, i: int)
    ensures MatchesIgnoringCase(s, kw, i) <==> OccursAt(Lower(s), kw, i)
  {
    if MatchesIgnoringCase(s, kw, i) {
      assert Lower(s)[i..i + |kw|] == kw;
    }
    if OccursAt(Lower(s), kw, i) {
      forall k | 0 <= k < |kw|
        ensures LowerChar(s[i + k]) == kw[k]
      {
        assert Lower(s)[i..i + |kw|][k] == Lower(s)[i + k];
      }
    }
  }

  lemma ContainsLowerIff(s: string, kw: string)
    ensures Contains(Lower(s), kw) <==> exists i :: MatchesIgnoringCase(s, kw, i)
  {
    ContainsIff(Lower(s), kw);
    forall i ensures MatchesIgnoringCase(s, kw, i) <==> OccursAt(Lower(s), kw, i) {
      MatchesIgnoringCaseIff(s, kw, i);
    }
  }

  /** A keyword matched ignoring case at some position is found by the search in the lower-cased text. */
  lemma FoundIgnoringCase(s: string, kw: string, i: int)
    requires MatchesIgnoringCase(s, kw, i)
    ensures Contains(Lower(s), kw)
  {
    ContainsLowerIff(s, kw);
  }

  /**
    Classification stated on the original text: revenue exactly when "revenue"
    occurs in it ignoring case, expense exactly when one of "expense", "cost",
    "supplies" does. The two tests are independent of each other.
   */
  lemma ClassificationIgnoresCase(category: string)
    ensures IsRevenue(category) <==> exists i :: MatchesIgnoringCase(category, "revenue", i)
    ensures IsExpense(category) <==>
      || (exists i :: MatchesIgnoringCase(category, "expense", i))
      || (exists i :: MatchesIgnoringCase(category, "cost", i))
      || (exists i :: MatchesIgnoringCase(category, "supplies", i))
  {
    ContainsLowerIff(category, "revenue");
    ContainsLowerIff(category, "expense");
    ContainsLowerIff(category, "cost");
    ContainsLowerIff(category, "supplies");
  }

  /** Two texts that differ only in the case of their letters classify identically. */
  lemma SameClassUpToCase(a: string, b: string)
    requires |a| == |b|
    requires forall i :: 0 <= i < |a| ==> LowerChar(a[i]) == LowerChar(b[i])
    ensures IsRevenue(a) == IsRevenue(b)
    ensures IsExpense(a) == IsExpense(b)
  {
    assert Lower(a) == Lower(b);
  }

  /** "REVENUE", "Revenue" and "revenue" are all revenue. */
  lemma RevenueSpellings(upper: string, title: string, lower: string)
    requires upper == "REVENUE" && title == "Revenue" && lower == "revenue"
    ensures IsRevenue(upper) && IsRevenue(title) && IsRevenue(lower)
  {
    FoundIgnoringCase(upper, "revenue", 0);
    FoundIgnoringCase(title, "revenue", 0);
    FoundIgnoringCase(lower, "revenue", 0);
  }

  /**
    A category can fall into both classes: "Cost of Revenue" is revenue and an
    expense. (The category is a parameter fixed by the precondition so that the
    verifier does not unfold the search over the literal text.)
   */
  lemma CostOfRevenueIsBoth(category: string)
    requires category == "Cost of Revenue"
    ensures IsRevenue(category) && IsExpense(category)
  {
    CostOfRevenueIsExpense(category);
    CostOfRevenueIsRevenue(category);
  }

  lemma CostOfRevenueIsExpense(category: string)
    requires category == "Cost of Revenue"
    ensures IsExpense(category)
  {
    FoundIgnoringCase(category, "cost", 0);
  }

  lemma CostOfRevenueIsRevenue(category: string)
    requires category == "Cost of Revenue"
    ensures IsRevenue(category)
  {
    FoundIgnoringCase(category, "revenue", 8);
  }

  /** A letter absent from the text in both cases is absent from its lower-cased form. */
  lemma LetterAbsent(s: string, ch: char, upper: char)
    requires 'a' <= ch <= 'z' && 'A' <= upper <= 'Z' && LowerChar(upper) == ch
    requires ch !in s && upper !in s
    ensures ch !in Lower(s)
  {
    forall i | 0 <= i < |s| ensures Lower(s)[i] != ch {
      assert s[i] in s;
    }
  }

  /** A keyword with a letter that the text lacks in both cases is not found in the lower-cased text. */
  lemma LacksKeyword(s: string, kw: string, k: int, upper: char)
    requires 0 <= k < |kw| && 'a' <= kw[k] <= 'z' && 'A' <= upper <= 'Z' && LowerChar(upper) == kw[k]
    requires kw[k] !in s && upper !in s
    ensures !Contains(Lower(s), kw)
  {
    LetterAbsent(s, kw[k], upper);
    MissingCharNotContained(Lower(s), kw, k);
  }

  /** Text without any of the letters x, c and p, in either case, is not an expense. */
  lemma NoExpenseLetters(s: string)
    requires 'x' !in s && 'X' !in s && 'c' !in s && 'C' !in s && 'p' !in s && 'P' !in s
    ensures !IsExpense(s)
  {
    LacksKeyword(s, "expense", 1, 'X');
    LacksKeyword(s, "cost", 0, 'C');
    LacksKeyword(s, "supplies", 2, 'P');
  }

  /** "Sales Revenue" is revenue and not an expense: it has no 'x', 'c' or 'p'. */
  lemma SalesRevenueIsRevenueOnly(category: string)
    requires category == "Sales Revenue"
    ensures IsRevenue(category) && !IsExpense(category)
  {
    SalesRevenueLacksExpense(category);
    SalesRevenueHasRevenue(category);
  }

  lemma SalesRevenueHasRevenue(category: string)
    requires category == "Sales Revenue"
    ensures IsRevenue(category)
  {
    FoundIgnoringCase(category, "revenue", 6);
  }

  lemma SalesRevenueLacksExpense(category: string)
    requires category == "Sales Revenue"
    ensures !IsExpense(category)
  {
    assert 'x' !in category && 'X' !in category && 'c' !in category && 'C' !in category;
    assert 'p' !in category && 'P' !in category;
    NoExpenseLetters(category);
  }

  /** "Office Expense" is an expense and not revenue: it has no 'v'. */
  lemma OfficeExpenseIsExpenseOnly(category: string)
    requires category == "Office Expense"
    ensures IsExpense(category) && !IsRevenue(category)
  {
    OfficeExpenseLacksRevenue(category);
    OfficeExpenseHasExpense(category);
  }

  lemma OfficeExpenseHasExpense(category: string)
    requires category == "Office Expense"
    ensures IsExpense(category)
  {
    FoundIgnoringCase(category, "expense", 7);
  }

  lemma OfficeExpenseLacksRevenue(category: string)
    requires category == "Office Expense"
    ensures !IsRevenue(category)
  {
    assert 'v' !in category && 'V' !in category;
    LacksKeyword(category, "revenue", 2, 'V');
  }

  /**
    "Rent" is neither revenue nor an expense: it contains none of the keywords,
    so a rent row counts in no total and has no line in the expense breakdown.
   */
  lemma RentIsUnclassified(category: string)
    requires category == "Rent"
    ensures !IsRevenue(category) && !IsExpense(category)
  {
    assert !IsRevenue(category) by {
      LacksKeyword(category, "revenue", 2, 'V');
    }
    assert !Contains(Lower(category), "expense") by {
      LacksKeyword(category, "expense", 1, 'X');
    }
    assert !Contains(Lower(category), "cost") by {
      LacksKeyword(category, "cost", 0, 'C');
    }
    assert !Contains(Lower(category), "supplies") by {
      LacksKeyword(category, "supplies", 2, 'P');
    }
  }

  lemma TravelCostIsExpense(category: string)
    requires category == "Travel Cost"
    ensures IsExpense(category)
  {
    FoundIgnoringCase(category, "cost", 7);
  }

  lemma OfficeSuppliesIsExpense(category: string)
    requires category == "Office Supplies"
    ensures IsExpense(category)
  {
    FoundIgnoringCase(category, "supplies", 7);
  }

}
