/**
 * formatTerms: renders teaching terms such as "Fall 2023" with the year first,
 * as `<span class="term-year">2023</span> Fall`. A list of two or more terms is
 * sorted most recent year first and, within a year, Spring, Summer, Fall,
 * Winter (unknown seasons first), and joined with `<br>`.
 */
module Terms {

  import opened Wrappers
  import opened Strings

  /** The record formatTerms builds for each term before sorting: a parsed term
      has a year, its season and the year's text; a term with a single token
      has year 0, empty season and year text, and keeps its original text. */
  datatype Entry = Entry(year: nat, season: string, yearStr: string, original: Option<string>)

  /** The year-first markup of one term. */
  function YearFirst(yearStr: string, season: string): string
  {
    "<span class=\"term-year\">" + yearStr + "</span> " + season
  }

  predicate IsDigit(c: char)
  {
    '0' <= c <= '9'
  }

  predicate AllDigits(s: string)
  {
    forall i :: 0 <= i < |s| ==> IsDigit(s[i])
  }

  /** parseInt on a string of decimal digits. */
  function DigitsValue(s: string): nat
    requires AllDigits(s)
  {
    if |s| == 0 then 0 else DigitsValue(s[..|s| - 1]) * 10 + (s[|s| - 1] as int - '0' as int)
  }

  /** Property names every plain JavaScript object inherits; looking one of them
      up in the season table yields a truthy non-number. */
  const ObjectPrototypeKeys: set<string> := {
    "constructor", "__proto__", "hasOwnProperty", "isPrototypeOf",
    "propertyIsEnumerable", "toString", "valueOf", "toLocaleString",
    "__defineGetter__", "__defineSetter__", "__lookupGetter__", "__lookupSetter__"
  }

  /** The space-separated tokens of the trimmed term. */
  function Tokens(term: string): (r: seq<string>)
    ensures |r| >= 1
  {
    Split(Trim(term), ' ')
  }

  /** The last token: the year. */
  function YearToken(term: string): string
  {
    var parts := Tokens(term);
    parts[|parts| - 1]
  }

  /** All tokens but the last, joined back with spaces: the season. */
  function SeasonText(term: string): string
  {
    var parts := Tokens(term);
    Join(parts[..|parts| - 1], " ")
  }

  /** A term the sort comparator handles with numbers only: if it has a year
      token at all, that token is all digits and the season is not an
      inherited object property. */
  predicate Sortable(term: string)
  {
    |Tokens(term)| >= 2 ==> AllDigits(YearToken(term)) && SeasonText(term) !in ObjectPrototypeKeys
  }

  predicate SortableList(terms: seq<string>)
  {
    forall i :: 0 <= i < |terms| ==> Sortable(terms[i])
  }

  /** Cutting a string at one of its spaces and putting a space back between
      the two halves gives the string. */
  lemma CutAtSpace(t: string, k: nat)
    requires k < |t| && t[k] == ' '
    ensures t[..k] + " " + t[k + 1..] == t
  {
    assert t == t[..k] + [t[k]] + t[k + 1..];
  }

  /** The year and season of a term that has a space: the text after and
      before its last space. */
  lemma {:induction false} TokensAtLastSpace(term: string)
    requires ' ' in Trim(term)
    ensures var t := Trim(term); var k := LastIndex(t, ' ');
      0 < k < |t| - 1 && YearToken(term) == t[k + 1..] && SeasonText(term) == t[..k]
  {
    var t := Trim(term);
    SplitAtLast(t, ' ');
    assert [' '] == " ";
  }

  /** The year token and season text, put back together, give the trimmed
      term; both are non-empty and the year has no space. */
  lemma {:induction false} TokensRejoin(term: string)
    requires ' ' in Trim(term)
    ensures SeasonText(term) + " " + YearToken(term) == Trim(term)
    ensures ' ' !in YearToken(term) && YearToken(term) != "" && SeasonText(term) != ""
  {
    var t := Trim(term);
    var k := LastIndex(t, ' ');
    TokensAtLastSpace(term);
    CutAtSpace(t, k);
  }

  /** The record built for one term. A term with a space splits at its last
      space into a non-empty season and a non-empty, space-free year that put
      back together give the trimmed term; any other term is kept verbatim. */
  function ParseEntry(term: string): (e: Entry)
    requires Sortable(term)
    ensures ' ' in Trim(term) ==>
      && e.original.None?
      && e.season + " " + e.yearStr == Trim(term)
      && ' ' !in e.yearStr && e.yearStr != "" && e.season != ""
      && AllDigits(e.yearStr) && e.year == DigitsValue(e.yearStr)
    ensures ' ' !in Trim(term) ==> e == Entry(0, "", "", Some(term))
  {
    var parts := Tokens(term);
    if |parts| >= 2 then
      TokensRejoin(term);
      Entry(DigitsValue(YearToken(term)), SeasonText(term), YearToken(term), None)
    else
      Entry(0, "", "", Some(term))
  }

  /** `seasonOrder[season] || 0`. */
  function SeasonRank(season: string): nat
  {
    if season == "Spring" then 1
    else if season == "Summer" then 2
    else if season == "Fall" then 3
    else if season == "Winter" then 4
    else 0
  }

  /** The sort comparator: negative or zero when `a` may stay before `b`. */
  function Compare(a: Entry, b: Entry): int
  {
    if a.year != b.year then b.year - a.year
    else SeasonRank(a.season) - SeasonRank(b.season)
  }

  /** Every pair of entries is in comparator order. */
  ghost predicate Sorted(s: seq<Entry>)
  {
    forall i, j :: 0 <= i < j < |s| ==> Compare(s[i], s[j]) <= 0
  }

  /** Inserts `x` before the first entry it may precede. */
  function Insert(x: Entry, s: seq<Entry>): (r: seq<Entry>)
    ensures multiset(r) == multiset(s) + multiset{x}
  {
    if |s| == 0 then [x]
    else if Compare(x, s[0]) <= 0 then [x] + s
    else
      assert s == [s[0]] + s[1..];
      [s[0]] + Insert(x, s[1..])
  }

  /** Inserting into a sorted sequence keeps it sorted. */
  lemma {:induction false} InsertSorted(x: Entry, s: seq<Entry>)
    requires Sorted(s)
    ensures Sorted(Insert(x, s))
    decreases |s|
  {
    if |s| == 0 {
      assert Insert(x, s) == [x];
    } else if Compare(x, s[0]) <= 0 {
      forall k | 0 <= k < |s| ensures Compare(x, s[k]) <= 0 {
        if k > 0 {
          assert Compare(s[0], s[k]) <= 0;
        }
      }
      SortedCons(x, s);
    } else {
      var rest := Insert(x, s[1..]);
      assert Sorted(s[1..]) by {
        forall i, j | 0 <= i < j < |s[1..]| ensures Compare(s[1..][i], s[1..][j]) <= 0 {
          assert s[1..][i] == s[i + 1] && s[1..][j] == s[j + 1];
        }
      }
      InsertSorted(x, s[1..]);
      forall k | 0 <= k < |rest| ensures Compare(s[0], rest[k]) <= 0 {
        assert rest[k] in multiset(rest);
        assert rest[k] in multiset(s[1..]) + multiset{x};
        if rest[k] != x {
          assert rest[k] in s[1..];
          var m :| 0 <= m < |s[1..]| && s[1..][m] == rest[k];
          assert s[m + 1] == rest[k];
        }
      }
      SortedCons(s[0], rest);
    }
  }

  /** An entry that may precede every entry of a sorted sequence can be put in front. */
  lemma SortedCons(e: Entry, r: seq<Entry>)
    requires Sorted(r)
    requires forall k :: 0 <= k < |r| ==> Compare(e, r[k]) <= 0
    ensures Sorted([e] + r)
  {
    var t := [e] + r;
    forall i, j | 0 <= i < j < |t| ensures Compare(t[i], t[j]) <= 0 {
      assert t[j] == r[j - 1];
      if i > 0 {
        assert t[i] == r[i - 1];
      }
    }
  }

  /** The stable sort of the entries (Array.prototype.sort is stable). */
  function SortEntries(s: seq<Entry>): (r: seq<Entry>)
    ensures Sorted(r)
    ensures multiset(r) == multiset(s)
  {
    if |s| == 0 then []
    else
      assert s == [s[0]] + s[1..];
      var rest := SortEntries(s[1..]);
      InsertSorted(s[0], rest);
      Insert(s[0], rest)
  }

  /** The entries of `s` whose year and season rank are `year` and `rank`, in order. */
  function WithKey(s: seq<Entry>, year: nat, rank: nat): seq<Entry>
  {
    if |s| == 0 then []
    else
      (if s[0].year == year && SeasonRank(s[0].season) == rank then [s[0]] else [])
      + WithKey(s[1..], year, rank)
  }

  /** The entry `e` if its year and season rank are `year` and `rank`. */
  function KeyPart(e: Entry, year: nat, rank: nat): seq<Entry>
  {
    if e.year == year && SeasonRank(e.season) == rank then [e] else []
  }

  lemma WithKeyCons(e: Entry, s: seq<Entry>, year: nat, rank: nat)
    ensures WithKey([e] + s, year, rank) == KeyPart(e, year, rank) + WithKey(s, year, rank)
  {
    assert ([e] + s)[0] == e && ([e] + s)[1..] == s;
  }

  lemma {:induction false} InsertWithKey(x: Entry, s: seq<Entry>, year: nat, rank: nat)
    ensures WithKey(Insert(x, s), year, rank) == KeyPart(x, year, rank) + WithKey(s, year, rank)
    decreases |s|
  {
    if |s| == 0 || Compare(x, s[0]) <= 0 {
      assert Insert(x, s) == [x] + s;
      WithKeyCons(x, s, year, rank);
    } else {
      var rest := Insert(x, s[1..]);
      InsertPastHead(x, s);
      WithKeyCons(s[0], rest, year, rank);
      InsertWithKey(x, s[1..], year, rank);
      assert s == [s[0]] + s[1..];
      WithKeyCons(s[0], s[1..], year, rank);
      DistinctKeys(x, s[0], year, rank);
      SwapEmpty(KeyPart(x, year, rank), KeyPart(s[0], year, rank), WithKey(s[1..], year, rank));
    }
  }

  lemma InsertPastHead(x: Entry, s: seq<Entry>)
    requires |s| > 0 && Compare(x, s[0]) > 0
    ensures Insert(x, s) == [s[0]] + Insert(x, s[1..])
  {
  }

  /** Entries that must be reordered do not share a year and season rank. */
  lemma DistinctKeys(x: Entry, e: Entry, year: nat, rank: nat)
    requires Compare(x, e) > 0
    ensures KeyPart(x, year, rank) == [] || KeyPart(e, year, rank) == []
  {
  }

  lemma SwapEmpty<T>(a: seq<T>, b: seq<T>, w: seq<T>)
    requires a == [] || b == []
    ensures b + (a + w) == a + (b + w)
  {
    if a == [] {
      assert a + w == w && a + (b + w) == b + w;
    } else {
      assert b + (a + w) == a + w && b + w == w;
    }
  }

  /** Stability: entries that compare equal keep their input order. */
  lemma {:induction false} SortEntriesStable(s: seq<Entry>, year: nat, rank: nat)
    ensures WithKey(SortEntries(s), year, rank) == WithKey(s, year, rank)
    decreases |s|
  {
    if |s| > 0 {
      SortEntriesStable(s[1..], year, rank);
      InsertWithKey(s[0], SortEntries(s[1..]), year, rank);
    }
  }

  /** How one sorted record is rendered: year first when it has both a year
      and a season, otherwise its original text, otherwise year and season
      with a space between them. */
  function RenderEntry(e: Entry): string
  {
    if e.yearStr != "" && e.season != "" then YearFirst(e.yearStr, e.season)
    else if e.original.Some? && e.original.value != "" then e.original.value
    else e.yearStr + " " + e.season
  }

  function RenderAll(s: seq<Entry>): (r: seq<string>)
    ensures |r| == |s|
  {
    if |s| == 0 then [] else [RenderEntry(s[0])] + RenderAll(s[1..])
  }

  lemma {:induction false} RenderAllInsert(x: Entry, s: seq<Entry>)
    ensures multiset(RenderAll(Insert(x, s))) == multiset(RenderAll(s)) + multiset{RenderEntry(x)}
    decreases |s|
  {
    if |s| == 0 || Compare(x, s[0]) <= 0 {
      RenderInsertFront(x, s);
    } else {
      RenderAllInsert(x, s[1..]);
      RenderInsertPastHead(x, s);
    }
  }

  lemma RenderInsertFront(x: Entry, s: seq<Entry>)
    requires |s| == 0 || Compare(x, s[0]) <= 0
    ensures multiset(RenderAll(Insert(x, s))) == multiset(RenderAll(s)) + multiset{RenderEntry(x)}
  {
    assert Insert(x, s) == [x] + s;
    RenderAllCons(x, s);
  }

  lemma RenderInsertPastHead(x: Entry, s: seq<Entry>)
    requires |s| > 0 && Compare(x, s[0]) > 0
    requires multiset(RenderAll(Insert(x, s[1..]))) == multiset(RenderAll(s[1..])) + multiset{RenderEntry(x)}
    ensures multiset(RenderAll(Insert(x, s))) == multiset(RenderAll(s)) + multiset{RenderEntry(x)}
  {
    var rest := Insert(x, s[1..]);
    InsertPastHead(x, s);
    RenderAllCons(s[0], rest);
    RenderAllTail(s);
    ConsMultisets(RenderEntry(s[0]), RenderAll(rest), RenderAll(s[1..]), multiset{RenderEntry(x)});
  }

  lemma RenderAllTail(s: seq<Entry>)
    requires |s| > 0
    ensures RenderAll(s) == [RenderEntry(s[0])] + RenderAll(s[1..])
  {
  }

  lemma ConsMultisets<T>(h: T, a: seq<T>, b: seq<T>, m: multiset<T>)
    requires multiset(a) == multiset(b) + m
    ensures multiset([h] + a) == multiset([h] + b) + m
  {
    assert multiset([h] + a) == multiset{h} + multiset(a);
    assert multiset([h] + b) == multiset{h} + multiset(b);
  }

  lemma RenderAllCons(e: Entry, s: seq<Entry>)
    ensures RenderAll([e] + s) == [RenderEntry(e)] + RenderAll(s)
  {
    assert ([e] + s)[1..] == s;
  }

  lemma {:induction false} RenderAllSort(s: seq<Entry>)
    ensures multiset(RenderAll(SortEntries(s))) == multiset(RenderAll(s))
    decreases |s|
  {
    if |s| > 0 {
      RenderAllSort(s[1..]);
      RenderAllInsert(s[0], SortEntries(s[1..]));
      assert RenderAll(s) == [RenderEntry(s[0])] + RenderAll(s[1..]);
    }
  }

  /** The records of the input terms, in input order. */
  function ParseAll(terms: seq<string>): seq<Entry>
    requires SortableList(terms)
  {
    seq(|terms|, i requires 0 <= i < |terms| => ParseEntry(terms[i]))
  }

  /** The sorted records of a list of two or more terms. */
  function SortedEntries(terms: seq<string>): seq<Entry>
    requires SortableList(terms)
  {
    SortEntries(ParseAll(terms))
  }

  /** The rendering of a single term: year first when the trimmed term has a
      space, otherwise the term exactly as given. */
  function FormatSingle(term: string): string
  {
    var parts := Tokens(term);
    if |parts| >= 2 then YearFirst(parts[|parts| - 1], Join(parts[..|parts| - 1], " "))
    else term
  }

  /** formatTerms; `None` is a missing (null or undefined) list. */
  function FormatTerms(terms: Option<seq<string>>): string
    requires terms.Some? && |terms.value| >= 2 ==> SortableList(terms.value)
  {
    if terms.None? || |terms.value| == 0 then ""
    else if |terms.value| == 1 then FormatSingle(terms.value[0])
    else Join(RenderAll(SortedEntries(terms.value)), "<br>")
  }

  /** No terms give the empty string. */
  lemma {:induction false} FormatTermsEmpty(terms: Option<seq<string>>)
    requires terms.None? || terms.value == []
    ensures FormatTerms(terms) == ""
  {
  }

  /** A single term with a space becomes `<span class="term-year">YEAR</span> SEASON`,
      YEAR the text after its last space and SEASON the text before it; a
      single term without a space is returned unchanged (untrimmed). */
  lemma {:induction false} FormatTermsSingle(term: string)
    ensures var t := Trim(term);
      ' ' in t ==> var k := LastIndex(t, ' ');
        FormatTerms(Some([term])) == YearFirst(t[k + 1..], t[..k])
    ensures ' ' !in Trim(term) ==> FormatTerms(Some([term])) == term
  {
    if ' ' in Trim(term) {
      TokensAtLastSpace(term);
    }
  }

  /** Inside a longer list a term renders exactly as it would alone, except
      the empty term, which renders as a lone space instead of "". */
  lemma {:induction false} RenderParsed(term: string)
    requires Sortable(term) && term != ""
    ensures RenderEntry(ParseEntry(term)) == FormatSingle(term)
  {
    if ' ' in Trim(term) {
      TokensRejoin(term);
    }
  }

  /** The empty term: "" on its own, a lone space inside a longer list. */
  lemma EmptyTermRendering()
    ensures Sortable("") && RenderEntry(ParseEntry("")) == " " && FormatSingle("") == ""
  {
    assert Trim("") == "";
    assert Split("", ' ') == [""];
  }

  /** Two or more terms: the result is `<br>`-joined entries, one per input
      term, that are the renderings of the input terms in some order; no term
      is dropped or duplicated. */
  lemma {:induction false} FormatTermsMany(terms: seq<string>)
    requires |terms| >= 2 && SortableList(terms)
    ensures var entries := RenderAll(SortedEntries(terms));
      && FormatTerms(Some(terms)) == Join(entries, "<br>")
      && |entries| == |terms|
      && multiset(entries) == multiset(RenderAll(ParseAll(terms)))
  {
    RenderAllSort(ParseAll(terms));
  }

  /** The sorted records are the input's records in some order, most recent
      year first, and within one year by non-decreasing season rank. */
  lemma {:induction false} SortedEntriesOrder(terms: seq<string>)
    requires SortableList(terms)
    ensures var s := SortedEntries(terms);
      && multiset(s) == multiset(ParseAll(terms))
      && (forall i, j :: 0 <= i < j < |s| ==> s[i].year >= s[j].year)
      && (forall i, j :: 0 <= i < j < |s| && s[i].year == s[j].year ==>
            SeasonRank(s[i].season) <= SeasonRank(s[j].season))
  {
    var s := SortedEntries(terms);
    forall i, j | 0 <= i < j < |s| ensures s[i].year >= s[j].year {
      assert Compare(s[i], s[j]) <= 0;
    }
    forall i, j | 0 <= i < j < |s| && s[i].year == s[j].year
      ensures SeasonRank(s[i].season) <= SeasonRank(s[j].season)
    {
      assert Compare(s[i], s[j]) <= 0;
    }
  }

  /** A term with no space (year 0) comes after every term with a positive year. */
  lemma {:induction false} UndatedAfterDated(terms: seq<string>, i: nat, j: nat)
    requires SortableList(terms)
    requires i < |SortedEntries(terms)| && j < |SortedEntries(terms)|
    requires SortedEntries(terms)[i].original.Some? && SortedEntries(terms)[j].year > 0
    ensures j < i
  {
    SortedUndated(terms, i);
    SortedYearOrder(SortedEntries(terms), i, j);
  }

  /** In a sorted sequence a dated entry never follows one with year 0. */
  lemma SortedYearOrder(s: seq<Entry>, i: nat, j: nat)
    requires Sorted(s) && i < |s| && j < |s|
    requires s[i].year == 0 && s[j].year > 0
    ensures j < i
  {
  }

  lemma SortedUndated(terms: seq<string>, i: nat)
    requires SortableList(terms) && i < |SortedEntries(terms)|
    ensures SortedEntries(terms)[i].original.Some? ==> SortedEntries(terms)[i].year == 0
  {
    var s := SortedEntries(terms);
    assert s[i] in multiset(s);
    ParsedUndated(terms, s[i]);
  }

  /** Every record of a term without a space has year 0. */
  lemma ParsedUndated(terms: seq<string>, e: Entry)
    requires SortableList(terms) && e in multiset(ParseAll(terms))
    ensures e.original.Some? ==> e.year == 0
  {
    var p := ParseAll(terms);
    assert e in p;
    var m :| 0 <= m < |p| && p[m] == e;
    assert e == ParseEntry(terms[m]);
  }
}
