// The conversation history message of internal/agent/llm/next_action.go. Lengths taken
// with len() are bytes, lengths taken on []rune are runes; the budget is spent in bytes
// and entries are cut by runes.
module History {
  import opened Text
  import Terminal

  // ---- bytes and runes -------------------------------------------------------------

  // Bytes of one rune in UTF-8.
  function Width(c: char): nat {
    if c < '\U{80}' then 1 else if c < '\U{800}' then 2 else if c < '\U{10000}' then 3 else 4
  }

  // len(s)
  function ByteLen(s: string): (n: nat)
    ensures n >= |s|
    ensures s != "" ==> n > 0
  {
    if s == "" then 0 else Width(s[0]) + ByteLen(s[1..])
  }

  // UTF-8 carries 7, 11, 16 or 21 bits in one to four bytes, and a rune takes the fewest.
  lemma WidthIs(c: char)
    ensures 1 <= Width(c) <= 4
    ensures (c as int) < [0x80, 0x800, 0x10000, 0x110000][Width(c) - 1]
    ensures Width(c) > 1 ==> c as int >= [0x80, 0x800, 0x10000, 0x110000][Width(c) - 2]
  {
  }

  lemma {:induction false} ByteLenConcat(a: string, b: string)
    ensures ByteLen(a + b) == ByteLen(a) + ByteLen(b)
  {
    if a == "" {
      assert a + b == b;
    } else {
      assert (a + b)[1..] == a[1..] + b;
      ByteLenConcat(a[1..], b);
    }
  }

  // The rendered templates: the header, the truncation suffix and what an entry puts
  // between its label and its body.
  datatype Templates = Templates(header: string, suffix: string, separator: string)

  // ---- one entry ---------------------------------------------------------------------

  function TruncateText(raw: string, limit: int, suffix: string): (r: string)
    ensures |r| <= if limit > 0 then limit else 0
    ensures |TrimSpace(raw)| <= limit ==> r == TrimSpace(raw)
  {
    var text := TrimSpace(raw);
    if limit <= 0 || text == "" then ""
    else if ByteLen(text) <= limit || |text| <= limit then text
    else if limit <= ByteLen(suffix) then text[..limit]
    else TrimSpace(text[..limit - ByteLen(suffix)]) + suffix
  }

  datatype Item = Item(isTool: bool, caption: string, body: string, threadId: string)

  // A text that does not fit the limit in runes is cut, and the suffix shows it, unless the
  // suffix alone takes up the limit in bytes.
  lemma TruncationIs(raw: string, limit: int, suffix: string)
    requires |TrimSpace(raw)| > limit > 0
    ensures TruncateText(raw, limit, suffix)
         == if ByteLen(suffix) < limit then TrimSpace(TrimSpace(raw)[..limit - ByteLen(suffix)]) + suffix
            else TrimSpace(raw)[..limit]
  {
    hide TrimSpace;
    var text := TrimSpace(raw);
    assert ByteLen(text) >= |text|;
  }

  // conversationHistoryItemEntry: the entry never has more runes than its budget, as long
  // as the template spends at most four on the separator.
  function Entry(t: Templates, item: Item, budget: int): (r: string)
    ensures |t.separator| <= 4 ==> |r| <= if budget > 0 then budget else 0
  {
    var body := TrimSpace(Terminal.Clean(item.body));
    var caption := TrimSpace(item.caption);
    var bodyBudget := budget - ByteLen(caption) - 4;
    if body == "" || caption == "" || bodyBudget <= 0 then ""
    else caption + t.separator + TruncateText(
           body, if item.isTool && bodyBudget > 1200 then 1200 else bodyBudget, t.suffix)
  }

  // An entry is the caption, the separator and the cleaned body, cut to what the caption and
  // four bytes leave of the budget, and to 1200 runes for a tool; without a caption, a body
  // or any room there is none.
  lemma EntryIs(t: Templates, item: Item, budget: int)
    ensures var body, caption := TrimSpace(Terminal.Clean(item.body)), TrimSpace(item.caption);
            var room := budget - ByteLen(caption) - 4;
            var most := if item.isTool && room > 1200 then 1200 else room;
            if body == "" || caption == "" || room <= 0 then Entry(t, item, budget) == ""
            else
              && caption + t.separator <= Entry(t, item, budget)
              && var cut := Entry(t, item, budget)[|caption + t.separator|..];
                 && |cut| <= most && (|body| <= most ==> cut == body)
                 && (|body| > most && ByteLen(t.suffix) < most ==>
                       cut == TrimSpace(body[..most - ByteLen(t.suffix)]) + t.suffix)
                 && (|body| > most && ByteLen(t.suffix) >= most ==> cut == body[..most])
  {
    var body, caption := TrimSpace(Terminal.Clean(item.body)), TrimSpace(item.caption);
    var room := budget - ByteLen(caption) - 4;
    var most := if item.isTool && room > 1200 then 1200 else room;
    if most > 0 {
      TrimmedCut(body, most, t.suffix);
    }
    hide TrimSpace, Terminal.Clean, ByteLen, TruncateText;
    var head := caption + t.separator;
    assert (head + TruncateText(body, most, t.suffix))[|head|..] == TruncateText(body, most, t.suffix);
  }

  lemma TrimmedCut(body: string, most: int, suffix: string)
    requires Trimmed(body) && most > 0
    ensures var cut := TruncateText(body, most, suffix);
            && |cut| <= most && (|body| <= most ==> cut == body)
            && (|body| > most && ByteLen(suffix) < most ==> cut == TrimSpace(body[..most - ByteLen(suffix)]) + suffix)
            && (|body| > most && ByteLen(suffix) >= most ==> cut == body[..most])
  {
    TrimSpaceOfTrimmed(body);
    if |body| > most {
      TruncationIs(body, most, suffix);
    }
    hide TrimSpace, ByteLen;
  }

  // An entry cut down when its bytes exceed what remains.
  function Fitted(t: Templates, entry: string, remaining: int): (r: string)
    ensures |entry| <= remaining ==> |r| <= remaining
  {
    if ByteLen(entry) > remaining then TruncateText(entry, remaining, t.suffix) else entry
  }

  // ---- the thread root -----------------------------------------------------------------

  predicate Threaded(item: Item) {
    !Blank(item.threadId)
  }

  // The item just before the first threaded one, if there is such an item.
  predicate IsThreadRoot(items: seq<Item>, root: int) {
    if root >= 0 then
      root + 1 < |items| && Threaded(items[root + 1]) && forall i :: 0 <= i <= root ==> !Threaded(items[i])
    else
      root == -1 && (items == [] || Threaded(items[0]) || forall i :: 0 <= i < |items| ==> !Threaded(items[i]))
  }

  method ThreadRootIndex(items: seq<Item>) returns (root: int)
    ensures IsThreadRoot(items, root)
  {
    hide Blank;
    var firstThread := -1;
    for i := 0 to |items|
      invariant firstThread == -1
      invariant forall j :: 0 <= j < i ==> !Threaded(items[j])
    {
      if Threaded(items[i]) {
        firstThread := i;
        break;
      }
    }
    if firstThread <= 0 {
      return -1;
    }
    for i := firstThread downto 0
      invariant i == firstThread
    {
      if !Threaded(items[i]) {
        return i;
      }
    }
    return -1;
  }

  // ---- selecting entries -----------------------------------------------------------------

  // Bytes spent on the selected entries from index lo on, leaving out one index.
  function Spent(selected: map<int, string>, skip: int, lo: nat, n: nat): nat
    requires lo <= n
    decreases n - lo
  {
    if lo == n then 0
    else (if lo in selected && lo != skip then ByteLen(selected[lo]) + 1 else 0) + Spent(selected, skip, lo + 1, n)
  }

  function RootCost(selected: map<int, string>, root: int): nat {
    if root in selected then ByteLen(selected[root]) + 1 else 0
  }

  // What is left for item i: everything minus the root and the newer entries.
  function Remaining(total: int, selected: map<int, string>, root: int, i: nat, n: nat): int
    requires i < n
  {
    total - RootCost(selected, root) - Spent(selected, root, i + 1, n)
  }

  function PinnedBudget(remaining: int): int {
    if remaining > 1200 then 1200 else remaining
  }

  // The root is pinned when its entry for the whole budget, at most 1200, is not blank.
  function PinnedRoot(t: Templates, items: seq<Item>, total: int, root: int): (pin: int)
    ensures pin == root || pin == -1
  {
    if 0 <= root < |items| && !Blank(Entry(t, items[root], PinnedBudget(total))) then root else -1
  }

  // A pinned root is chosen first. Any other item is chosen exactly when something is left
  // after the root and all newer entries and its entry for that much is not blank.
  predicate IsSelection(t: Templates, items: seq<Item>, total: int, root: int, selected: map<int, string>) {
    && (forall i :: i in selected ==> 0 <= i < |items|)
    && RootChosen(t, items, total, root, selected)
    && (forall i :: 0 <= i < |items| && i != root ==> Chosen(t, items, total, root, selected, i))
  }

  predicate RootChosen(t: Templates, items: seq<Item>, total: int, root: int, selected: map<int, string>) {
    if 0 <= root < |items|
    then root in selected && selected[root] == Entry(t, items[root], PinnedBudget(total))
    else root !in selected
  }

  predicate Chosen(t: Templates, items: seq<Item>, total: int, root: int, selected: map<int, string>, i: nat)
    requires i < |items|
  {
    var remaining := Remaining(total, selected, root, i, |items|);
    var entry := Entry(t, items[i], remaining);
    if remaining > 0 && !Blank(entry) then i in selected && selected[i] == Fitted(t, entry, remaining)
    else i !in selected
  }

  // A pinned root takes at most 1200 of the budget.
  lemma PinnedIs(t: Templates, items: seq<Item>, total: int, root: int, selected: map<int, string>)
    requires 0 <= root < |items| && IsSelection(t, items, total, root, selected)
    ensures root in selected && selected[root] == Entry(t, items[root], if total > 1200 then 1200 else total)
    ensures PinnedRoot(t, items, total, root)
         == if AllSpace(Entry(t, items[root], if total > 1200 then 1200 else total)) then -1 else root
  {
    BlankIsAllSpace(Entry(t, items[root], PinnedBudget(total)));
    hide Entry, Chosen;
  }

  // The selected entries in the order of the items.
  function Listing(selected: map<int, string>, lo: nat, n: nat): string
    requires lo <= n
    decreases n - lo
  {
    if lo == n then ""
    else (if lo in selected then "\n" + selected[lo] else "") + Listing(selected, lo + 1, n)
  }

  function Limit(maxChars: int): int {
    if maxChars <= 0 then 8000 else maxChars
  }

  // ---- the code ------------------------------------------------------------------------------

  method ConversationContextMessage(t: Templates, noMessages: bool, items: seq<Item>, maxChars: int)
    returns (text: string, ghost selected: map<int, string>, ghost root: int)
    ensures |t.separator| <= 4 ==> |text| <= Limit(maxChars)
    ensures noMessages ==> text == ""
    ensures !noMessages && Limit(maxChars) <= ByteLen(t.header) ==>
              text == TruncateText(t.header, Limit(maxChars), t.suffix)
    ensures !noMessages && Limit(maxChars) > ByteLen(t.header) ==>
              && IsThreadRoot(items, root)
              && (var total := Limit(maxChars) - ByteLen(t.header) - 1;
                  IsSelection(t, items, total, PinnedRoot(t, items, total, root), selected))
              && text == if selected == map[] then t.header
                         else TrimSpace(t.header + Listing(selected, 0, |items|))
  {
    hide Entry, Fitted, Blank, TrimSpace, TruncateText, ByteLen, IsThreadRoot, Terminal.Clean, PinnedRoot, IsSelection;
    selected, root := map[], -1;
    if noMessages {
      return "", selected, root;
    }
    var limit := if maxChars <= 0 then 8000 else maxChars;
    if limit <= ByteLen(t.header) {
      text := TruncateText(t.header, limit, t.suffix);
      return;
    }
    var chosen, rootIndex := SelectEntries(t, items, limit - ByteLen(t.header) - 1);
    selected, root := chosen, rootIndex;
    RootInRange(items, root);
    if |t.separator| <= 4 {
      HistoryFitsBudget(t, items, maxChars, PinnedRoot(t, items, limit - ByteLen(t.header) - 1, root), selected);
    }
    if chosen == map[] {
      text := t.header;
      return;
    }
    var listing := "";
    for k := 0 to |items|
      invariant listing + Listing(chosen, k, |items|) == Listing(chosen, 0, |items|)
    {
      if k in chosen {
        AppendThree(listing, chosen[k], Listing(chosen, k + 1, |items|));
        listing := listing + "\n" + chosen[k];
      }
    }
    assert listing + "" == listing;
    text := TrimSpace(t.header + listing);
  }

  // The pinned root, then the newest items that fit.
  method SelectEntries(t: Templates, items: seq<Item>, total: int) returns (chosen: map<int, string>, root: int)
    ensures IsThreadRoot(items, root)
    ensures IsSelection(t, items, total, PinnedRoot(t, items, total, root), chosen)
  {
    hide Entry, Fitted, Blank, TrimSpace, TruncateText, ByteLen, IsThreadRoot, Terminal.Clean, IsSelection, Chosen;
    var remaining := total;
    chosen := map[];
    root := ThreadRootIndex(items);
    RootInRange(items, root);
    if root >= 0 {
      var entry := Entry(t, items[root], PinnedBudget(remaining));
      if !Blank(entry) {
        chosen := chosen[root := entry];
        remaining := remaining - (ByteLen(entry) + 1);
      }
    }
    ghost var pin := PinnedRoot(t, items, total, root);
    NothingSpent(chosen, pin, |items|);
    var i := |items| - 1;
    while i >= 0 && remaining > 0
      invariant -1 <= i < |items|
      invariant forall k :: k in chosen ==> k == pin || i < k < |items|
      invariant RootChosen(t, items, total, pin, chosen)
      invariant remaining == total - RootCost(chosen, pin) - Spent(chosen, pin, i + 1, |items|)
      invariant forall k :: i < k < |items| && k != pin ==> Chosen(t, items, total, pin, chosen, k)
      decreases i
    {
      ghost var before := chosen;
      if i in chosen {
        SkipRoot(chosen, pin, i, |items|);
        i := i - 1;
        continue;
      }
      var entry := Entry(t, items[i], remaining);
      if Blank(entry) {
        NotChosen(t, items, total, pin, chosen, i);
        i := i - 1;
        continue;
      }
      if ByteLen(entry) > remaining {
        entry := TruncateText(entry, remaining, t.suffix);
      }
      FittedIs(t, Entry(t, items[i], remaining), remaining);
      chosen := chosen[i := entry];
      remaining := remaining - (ByteLen(entry) + 1);
      ChooseOne(t, items, total, pin, before, chosen, entry, i);
      i := i - 1;
    }
    NothingLeft(t, items, total, pin, chosen, i);
  }

  // A blank entry leaves the item out.
  lemma NotChosen(t: Templates, items: seq<Item>, total: int, root: int, selected: map<int, string>, i: nat)
    requires i < |items| && i !in selected
    requires Blank(Entry(t, items[i], Remaining(total, selected, root, i, |items|)))
    ensures Chosen(t, items, total, root, selected, i)
    ensures Spent(selected, root, i, |items|) == Spent(selected, root, i + 1, |items|)
  {
    hide Entry, Blank, ByteLen;
  }

  lemma AppendThree(a: string, b: string, c: string)
    ensures a + ("\n" + b + c) == a + "\n" + b + c
  {
  }

  lemma RootInRange(items: seq<Item>, root: int)
    requires IsThreadRoot(items, root)
    ensures -1 <= root < |items|
  {
  }

  lemma FittedIs(t: Templates, entry: string, remaining: int)
    ensures Fitted(t, entry, remaining)
         == if ByteLen(entry) > remaining then TruncateText(entry, remaining, t.suffix) else entry
  {
  }

  lemma NothingSpent(selected: map<int, string>, root: int, n: nat)
    requires forall k :: k in selected ==> k == root
    ensures Spent(selected, root, n, n) == 0
  {
  }

  lemma SkipRoot(selected: map<int, string>, root: int, i: nat, n: nat)
    requires i < n && i in selected && (forall k :: k in selected ==> k == root || i < k < n)
    ensures i == root
  {
  }

  lemma {:induction false} SpentAbove(a: map<int, string>, b: map<int, string>, root: int, lo: nat, n: nat)
    requires lo <= n
    requires forall k :: lo <= k < n && k != root ==> (k in a <==> k in b) && (k in a ==> a[k] == b[k])
    ensures Spent(a, root, lo, n) == Spent(b, root, lo, n)
    decreases n - lo
  {
    hide ByteLen;
    if lo < n {
      SpentAbove(a, b, root, lo + 1, n);
    }
  }

  // Choosing item i does not touch what was left for newer items.
  lemma ChooseOne(t: Templates, items: seq<Item>, total: int, root: int, before: map<int, string>,
        after: map<int, string>, entry: string, i: nat)
    requires i < |items| && i !in before && after == before[i := entry]
    requires forall k :: i < k < |items| && k != root ==> Chosen(t, items, total, root, before, k)
    requires RootChosen(t, items, total, root, before) && i != root
    requires var remaining := Remaining(total, before, root, i, |items|);
             && remaining > 0 && !Blank(Entry(t, items[i], remaining))
             && entry == Fitted(t, Entry(t, items[i], remaining), remaining)
    ensures RootChosen(t, items, total, root, after)
    ensures forall k :: i <= k < |items| && k != root ==> Chosen(t, items, total, root, after, k)
    ensures RootCost(after, root) == RootCost(before, root)
    ensures Spent(after, root, i, |items|) == Spent(before, root, i + 1, |items|) + ByteLen(entry) + 1
  {
    hide Entry, Fitted, Blank, ByteLen;
    forall k | i <= k < |items| && k != root ensures Chosen(t, items, total, root, after, k) {
      SpentAbove(before, after, root, k + 1, |items|);
      assert Remaining(total, after, root, k, |items|) == Remaining(total, before, root, k, |items|);
      if k > i {
        assert Chosen(t, items, total, root, before, k);
      }
    }
    SpentAbove(before, after, root, i + 1, |items|);
  }

  // When the loop ends, whatever is older has nothing left to be chosen from.
  lemma NothingLeft(t: Templates, items: seq<Item>, total: int, root: int, selected: map<int, string>, i: int)
    requires -1 <= i < |items|
    requires forall k :: k in selected ==> k == root || i < k < |items|
    requires RootChosen(t, items, total, root, selected) && -1 <= root < |items|
    requires forall k :: i < k < |items| && k != root ==> Chosen(t, items, total, root, selected, k)
    requires i == -1 || total - RootCost(selected, root) - Spent(selected, root, i + 1, |items|) <= 0
    ensures IsSelection(t, items, total, root, selected)
  {
    hide Entry, Fitted, Blank, ByteLen;
    forall k | 0 <= k <= i && k != root ensures Chosen(t, items, total, root, selected, k) {
      SpentNothingBelow(selected, root, k + 1, i + 1, |items|);
    }
  }

  lemma {:induction false} SpentNothingBelow(selected: map<int, string>, root: int, lo: nat, mid: nat, n: nat)
    requires lo <= mid <= n && forall k :: lo <= k < mid && k in selected ==> k == root
    ensures Spent(selected, root, lo, n) == Spent(selected, root, mid, n)
    decreases mid - lo
  {
    hide ByteLen;
    if lo < mid {
      SpentNothingBelow(selected, root, lo + 1, mid, n);
    }
  }

  // ---- the budget -----------------------------------------------------------------------------

  // Runes of the selected entries and their line feeds.
  function Runes(selected: map<int, string>, skip: int, lo: nat, n: nat): nat
    requires lo <= n
    decreases n - lo
  {
    if lo == n then 0
    else (if lo in selected && lo != skip then |selected[lo]| + 1 else 0) + Runes(selected, skip, lo + 1, n)
  }

  function RootRunes(selected: map<int, string>, root: int): nat {
    if root in selected then |selected[root]| + 1 else 0
  }

  lemma {:induction false} ListingRunes(selected: map<int, string>, root: int, lo: nat, n: nat)
    requires lo <= n && (root in selected ==> root < n)
    ensures |Listing(selected, lo, n)|
         == Runes(selected, root, lo, n) + if lo <= root then RootRunes(selected, root) else 0
    decreases n - lo
  {
    if lo < n {
      ListingRunes(selected, root, lo + 1, n);
    }
  }

  // The last entry chosen may spend more bytes than are left, but not more runes.
  lemma {:induction false} RunesFit(t: Templates, items: seq<Item>, total: int, root: int, selected: map<int, string>,
        lo: nat)
    requires lo <= |items| && total >= 0 && |t.separator| <= 4
    requires IsSelection(t, items, total, root, selected)
    ensures RootRunes(selected, root) + Runes(selected, root, lo, |items|) <= total + 1
    ensures RootRunes(selected, root) + Runes(selected, root, lo, |items|)
         <= RootCost(selected, root) + Spent(selected, root, lo, |items|)
    decreases |items| - lo
  {
    hide Blank, ByteLen, TrimSpace, Terminal.Clean, TruncateText;
    if lo < |items| {
      RunesFit(t, items, total, root, selected, lo + 1);
      if lo != root {
        assert Chosen(t, items, total, root, selected, lo);
      }
    }
  }

  // The history message never has more runes than the budget, for every list of items.
  lemma HistoryFitsBudget(t: Templates, items: seq<Item>, maxChars: int, pin: int, selected: map<int, string>)
    requires |t.separator| <= 4 && Limit(maxChars) > ByteLen(t.header) && -1 <= pin < |items|
    requires IsSelection(t, items, Limit(maxChars) - ByteLen(t.header) - 1, pin, selected)
    ensures |t.header| <= |t.header + Listing(selected, 0, |items|)| <= Limit(maxChars)
    ensures |TrimSpace(t.header + Listing(selected, 0, |items|))| <= Limit(maxChars)
  {
    hide ByteLen, Entry, Chosen;
    RunesFit(t, items, Limit(maxChars) - ByteLen(t.header) - 1, pin, selected, 0);
    ListingRunes(selected, pin, 0, |items|);
  }

  // ---- sharing the budget with summaries -------------------------------------------------------

  function ContextBudgets(maxChars: int, hasSummaries: bool): (int, int) {
    var limit := Limit(maxChars);
    if !hasSummaries then (0, limit)
    else
      var s := limit * 7 / 10;
      var summary := if s < 1000 then limit / 2 else s;
      var h := limit - summary;
      (summary, if h < 1000 then limit / 2 else h)
  }

  // With summaries they get seven tenths of the limit and the history the rest, but half of
  // the limit where a share would be under a thousand.
  lemma SharesAre(maxChars: int)
    ensures var limit := if maxChars > 0 then maxChars else 8000;
            var (summary, history) := ContextBudgets(maxChars, true);
            && ContextBudgets(maxChars, false) == (0, limit)
            && (limit >= 1429 <==> 10 * summary <= 7 * limit < 10 * summary + 10 && summary >= 1000)
            && (limit < 1429 ==> 2 * summary <= limit < 2 * summary + 2)
            && (limit - summary >= 1000 ==> history == limit - summary)
            && (limit - summary < 1000 ==> 2 * history <= limit < 2 * history + 2)
  {
  }

  // The two budgets together stay within the limit except from 1429 to 3330.
  lemma BudgetsAddUpIff(maxChars: int, hasSummaries: bool)
    ensures var (summary, history) := ContextBudgets(maxChars, hasSummaries);
            summary + history <= Limit(maxChars) <==> !hasSummaries || !(1429 <= Limit(maxChars) <= 3330)
  {
  }

  lemma BudgetsOverrun()
    ensures var (summary, history) := ContextBudgets(2000, true); summary == 1400 && history == 1000
  {
  }
}
