/** The page-wide helpers: number grouping, the quick search over its mock
    items, closing every open dialog with Escape, and the keyboard
    shortcuts. */
module EnhancedFeatures {
  import opened Text
  import opened Seqs

  // Number formatting

  /** The regular-expression replace that puts a ',' at every position
      inside the digits that is followed by a whole number of groups of
      three, computed by splitting three digits off the right. */
  function GroupDigits(d: string): (r: string)
    ensures d == [] ==> r == []
    ensures d != [] ==> 3 * (|r| - |d|) <= |d| - 1 < 3 * (|r| - |d|) + 3
    decreases |d|
  {
    if |d| <= 3 then d else GroupDigits(d[..|d| - 3]) + "," + d[|d| - 3..]
  }

  /** The commas fall exactly where the distance to the end is a multiple
      of four, which is one comma before every whole group of three digits
      counted from the right; all else is the digits. */
  lemma GroupDigitsShape(d: string)
    requires AllDigits(d)
    ensures d == [] ==> GroupDigits(d) == []
    ensures d != [] ==> |GroupDigits(d)| == |d| + (|d| - 1) / 3
    ensures forall i :: 0 <= i < |GroupDigits(d)| ==>
              (GroupDigits(d)[i] == ',' <==> (|GroupDigits(d)| - i) % 4 == 0)
  {
    GroupDigitsCommas(d);
  }

  /** A ',' exactly where the distance to the end is a multiple of four. */
  predicate CommaPositions(r: string) {
    forall i :: 0 <= i < |r| ==> (r[i] == ',' <==> (|r| - i) % 4 == 0)
  }

  lemma {:induction false} GroupDigitsCommas(d: string)
    requires AllDigits(d)
    ensures CommaPositions(GroupDigits(d))
    decreases |d|
  {
    if |d| <= 3 {
      ShortDigitsCommas(d);
    } else {
      var init, tail := d[..|d| - 3], d[|d| - 3..];
      AllDigitsSplit(d, |d| - 3);
      GroupDigitsCommas(init);
      CommasAppend(GroupDigits(init), tail);
      assert GroupDigits(d) == GroupDigits(init) + [','] + tail;
    }
  }

  lemma ShortDigitsCommas(d: string)
    requires AllDigits(d) && |d| <= 3
    ensures CommaPositions(d)
  {
    forall i | 0 <= i < |d|
      ensures d[i] == ',' <==> (|d| - i) % 4 == 0
    {
      assert IsDigit(d[i]);
    }
  }

  /** One more group of three digits, after a ',', keeps the positions. */
  lemma CommasAppend(h: string, tail: string)
    requires CommaPositions(h) && AllDigits(tail) && |tail| == 3
    ensures CommaPositions(h + [','] + tail)
  {
    var r := h + [','] + tail;
    forall i | 0 <= i < |r|
      ensures r[i] == ',' <==> (|r| - i) % 4 == 0
    {
      if i < |h| {
        assert r[i] == h[i];
      } else if i > |h| {
        assert r[i] == tail[i - |h| - 1];
      }
    }
  }

  /** `s.replace(/,/g, '')` */
  function RemoveCommas(s: string): string {
    if s == [] then []
    else (if s[0] == ',' then [] else [s[0]]) + RemoveCommas(s[1..])
  }

  lemma {:induction false} RemoveCommasAppend(a: string, b: string)
    ensures RemoveCommas(a + b) == RemoveCommas(a) + RemoveCommas(b)
  {
    if a == [] {
      assert a + b == b;
    } else {
      var ab := a + b;
      assert ab[0] == a[0];
      assert ab[1..] == a[1..] + b;
      RemoveCommasAppend(a[1..], b);
    }
  }

  lemma {:induction false} RemoveCommasDigits(d: string)
    requires AllDigits(d)
    ensures RemoveCommas(d) == d
  {
    if d != [] {
      RemoveCommasDigits(d[1..]);
    }
  }

  /** Removing the commas around one group of digits. */
  lemma UngroupStep(h: string, tail: string)
    requires AllDigits(tail)
    ensures RemoveCommas(h + ([','] + tail)) == RemoveCommas(h) + tail
  {
    RemoveCommasAppend(h, [','] + tail);
    assert ([','] + tail)[1..] == tail;
    RemoveCommasDigits(tail);
  }

  /** Removing the commas gives back the digits. */
  lemma {:induction false} GroupDigitsUngroup(d: string)
    requires AllDigits(d)
    ensures RemoveCommas(GroupDigits(d)) == d
    decreases |d|
  {
    if |d| <= 3 {
      RemoveCommasDigits(d);
    } else {
      var k := |d| - 3;
      AllDigitsSplit(d, k);
      GroupDigitsUngroup(d[..k]);
      GroupDigitsUnfold(d);
      UngroupStep(GroupDigits(d[..k]), d[k..]);
      assert d == d[..k] + d[k..];
    }
  }

  lemma AllDigitsSplit(d: string, k: nat)
    requires AllDigits(d) && k <= |d|
    ensures AllDigits(d[..k]) && AllDigits(d[k..])
  {
    assert forall i :: 0 <= i < k ==> d[..k][i] == d[i];
    assert forall i :: 0 <= i < |d| - k ==> d[k..][i] == d[k + i];
  }

  lemma GroupDigitsUnfold(d: string)
    requires |d| > 3
    ensures GroupDigits(d) == GroupDigits(d[..|d| - 3]) + ([','] + d[|d| - 3..])
  {
  }

  /** `formatNumber(num)` on an integer: `toString`, then the grouping; a
      minus sign is not a digit, so no comma follows it. */
  function FormatNumber(n: int): (r: string)
    ensures n >= 0 ==> r == GroupDigits(NatToString(n))
    ensures n < 0 ==> r == "-" + GroupDigits(NatToString(-n))
  {
    if n < 0 then "-" + GroupDigits(NatToString(-n)) else GroupDigits(NatToString(n))
  }

  /** The counter animation reads a formatted number back with
      `parseInt(text.replace(/,/g, ''))` and gets the number again. */
  lemma FormatNumberReadBack(n: nat)
    ensures AllDigits(RemoveCommas(FormatNumber(n)))
    ensures ParseDigits(RemoveCommas(FormatNumber(n))) == n
  {
    GroupDigitsUngroup(NatToString(n));
    ParseNatToString(n);
  }

  lemma NatToStringShort(n: nat)
    requires n < 1000
    ensures |NatToString(n)| <= 3
  {
    if n >= 10 {
      assert NatToString(n) == NatToString(n / 10) + [DigitChar(n % 10)];
      if n / 10 >= 10 {
        assert NatToString(n / 10) == NatToString(n / 100) + [DigitChar(n / 10 % 10)];
      }
    }
  }

  /** Numbers below 1000 are printed without a comma. */
  lemma FormatNumberSmall(n: nat)
    requires n < 1000
    ensures FormatNumber(n) == NatToString(n)
  {
    NatToStringShort(n);
  }

  // Quick search

  datatype SearchItem = SearchItem(kind: string, title: string, status: string)

  const MockResults: seq<SearchItem> := [
    SearchItem("Campaign", "Summer Sale 2024", "Active"),
    SearchItem("Post", "Product Launch Announcement", "Scheduled"),
    SearchItem("Analytics", "Q4 Performance Report", "Ready")]

  predicate TitleMatches(item: SearchItem, query: string) {
    Contains(Lower(item.title), Lower(query))
  }

  datatype SearchView = TypeToSearch | NoResults | Results(items: seq<SearchItem>)

  /** The search over a list of items. */
  function Search(items: seq<SearchItem>, query: string): (v: SearchView)
    ensures |query| < 2 <==> v == TypeToSearch
    ensures v == NoResults <==>
      |query| >= 2 && forall i :: 0 <= i < |items| ==> !TitleMatches(items[i], query)
    ensures v.Results? ==> v.items != [] && v.items == Filter(items, item => TitleMatches(item, query))
  {
    if |query| < 2 then TypeToSearch
    else
      var found := Filter(items, item => TitleMatches(item, query));
      if found == [] then
        NoResults
      else
        assert found[0] in items && TitleMatches(found[0], query);
        Results(found)
  }

  /** `performSearch(query)`: a query shorter than two characters only
      shows the prompt; otherwise the mock items whose title contains the
      query, ignoring case, in their order, or "No results found". */
  function PerformSearch(query: string): (v: SearchView)
    ensures |query| < 2 <==> v == TypeToSearch
    ensures |query| > 27 ==> v == NoResults
  {
    MockTitlesShort();
    if |query| > 27 then LongQueryFindsNothing(MockResults, query); Search(MockResults, query)
    else Search(MockResults, query)
  }

  lemma LowerIdempotent(s: string)
    ensures Lower(Lower(s)) == Lower(s)
  {
  }

  lemma LowerOfUpper(s: string)
    ensures Lower(Upper(s)) == Lower(s)
  {
  }

  /** The search ignores the case of the query. */
  lemma SearchIgnoresCase(items: seq<SearchItem>, query: string)
    ensures Search(items, Lower(query)) == Search(items, query)
    ensures Search(items, Upper(query)) == Search(items, query)
  {
    LowerIdempotent(query);
    LowerOfUpper(query);
    FilterCongruent(items, item => TitleMatches(item, Lower(query)), item => TitleMatches(item, query));
    FilterCongruent(items, item => TitleMatches(item, Upper(query)), item => TitleMatches(item, query));
  }

  lemma ContainsLength(s: string, p: string)
    requires Contains(s, p)
    ensures |p| <= |s|
  {
  }

  /** A query longer than every title finds nothing. */
  lemma LongQueryFindsNothing(items: seq<SearchItem>, query: string)
    requires |query| >= 2
    requires forall i :: 0 <= i < |items| ==> |items[i].title| < |query|
    ensures Search(items, query) == NoResults
  {
    forall i | 0 <= i < |items|
      ensures !TitleMatches(items[i], query)
    {
      if TitleMatches(items[i], query) {
        ContainsLength(Lower(items[i].title), Lower(query));
      }
    }
  }

  /** No mock title is longer than 27 characters, so a 28-character query
      finds nothing. */
  lemma MockTitlesShort()
    ensures forall i :: 0 <= i < |MockResults| ==> |MockResults[i].title| <= 27
  {
  }

  // Escape closes the open dialogs

  datatype ModalState = ModalState(id: string, hidden: bool)

  function CloseUnlessAuth(m: ModalState): ModalState {
    if !m.hidden && !Contains(m.id, "auth") then m.(hidden := true) else m
  }

  /** What `closeAllModals` leaves: every open dialog whose id does not
      contain "auth" is hidden; the others are as they were. */
  function AllClosed(ms: seq<ModalState>): (r: seq<ModalState>)
    ensures |r| == |ms|
    ensures forall i :: 0 <= i < |ms| ==> r[i].id == ms[i].id
    ensures forall i :: 0 <= i < |ms| ==> (!r[i].hidden <==> !ms[i].hidden && Contains(ms[i].id, "auth"))
  {
    seq(|ms|, i requires 0 <= i < |ms| => CloseUnlessAuth(ms[i]))
  }

  /** A second Escape changes nothing. */
  lemma AllClosedIdempotent(ms: seq<ModalState>)
    ensures AllClosed(AllClosed(ms)) == AllClosed(ms)
  {
  }

  /** `closeAllModals` over the page's dialogs, in place. */
  method CloseAllModals(modals: array<ModalState>)
    modifies modals
    ensures modals[..] == AllClosed(old(modals[..]))
  {
    var i := 0;
    while i < modals.Length
      invariant 0 <= i <= modals.Length
      invariant forall j :: 0 <= j < i ==> modals[j] == CloseUnlessAuth(old(modals[j]))
      invariant forall j :: i <= j < modals.Length ==> modals[j] == old(modals[j])
    {
      if !modals[i].hidden && !Contains(modals[i].id, "auth") {
        modals[i] := modals[i].(hidden := true);
      }
      i := i + 1;
    }
  }

  // Keyboard shortcuts

  datatype KeyEvent = KeyEvent(key: string, ctrl: bool, meta: bool, shift: bool)

  datatype Shortcut = OpenQuickSearch | NewAd | ShowShortcuts | ToggleTheme | CloseModals

  /** The page the new-ad shortcut navigates to. */
  const NewAdPage := "simple-ad.html"

  /** The checks of the keydown listener, in order; each that matches fires. */
  function KeyActions(e: KeyEvent): (r: seq<Shortcut>)
    ensures OpenQuickSearch in r <==> (e.ctrl || e.meta) && e.key == "k"
    ensures NewAd in r <==> (e.ctrl || e.meta) && e.key == "n"
    ensures ShowShortcuts in r <==> (e.ctrl || e.meta) && e.key == "/"
    ensures ToggleTheme in r <==> (e.ctrl || e.meta) && e.shift && e.key == "D"
    ensures CloseModals in r <==> e.key == "Escape"
  {
    var mod := e.ctrl || e.meta;
    (if mod && e.key == "k" then [OpenQuickSearch] else [])
    + (if mod && e.key == "n" then [NewAd] else [])
    + (if mod && e.key == "/" then [ShowShortcuts] else [])
    + (if mod && e.shift && e.key == "D" then [ToggleTheme] else [])
    + (if e.key == "Escape" then [CloseModals] else [])
  }

  /** A key press fires at most one shortcut. */
  lemma KeyActionsAtMostOne(e: KeyEvent)
    ensures |KeyActions(e)| <= 1
  {
  }
}
