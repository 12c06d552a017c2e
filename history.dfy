/** The "Recent Searches" list of the summarizer page: a bounded,
    newest-first list of the queries that were summarized successfully. */
module History {

  /** The two query modes; `activeTab` only ever holds 'youtube' or 'wiki'. */
  datatype Tab = YouTube | Wiki

  /** A history item `{type, query}`. */
  datatype Entry = Entry(kind: Tab, query: string)

  /** The list keeps the newest entry and the four before it. */
  const Capacity: nat := 5

  function Min(a: int, b: int): int
  {
    if a <= b then a else b
  }

  /** The text of the input the tab shows: the video URL on the YouTube tab,
      the question otherwise. */
  function ActiveBuffer(tab: Tab, videoUrl: string, wikiQuestion: string): (text: string)
    ensures tab.YouTube? ==> text == videoUrl
    ensures tab.Wiki? ==> text == wikiQuestion
  {
    if tab.YouTube? then videoUrl else wikiQuestion
  }

  /** The entry a submission on `tab` records. */
  function Submitted(tab: Tab, videoUrl: string, wikiQuestion: string): (e: Entry)
    ensures e.kind == tab
    ensures tab.YouTube? ==> e.query == videoUrl
    ensures tab.Wiki? ==> e.query == wikiQuestion
  {
    Entry(tab, ActiveBuffer(tab, videoUrl, wikiQuestion))
  }

  /** The first `Capacity` elements of `s`. */
  function Newest(s: seq<Entry>): (r: seq<Entry>)
    ensures |r| <= Capacity
  {
    s[..Min(|s|, Capacity)]
  }

  /** The history updater: the new entry goes in front and at most four of
      the previous entries stay behind it. */
  function Record(history: seq<Entry>, entry: Entry): (r: seq<Entry>)
    ensures |r| == Min(|history| + 1, Capacity)
    ensures r[0] == entry
    ensures forall i :: 1 <= i < |r| ==> r[i] == history[i - 1]
  {
    [entry] + history[..Min(|history|, Capacity - 1)]
  }

  /** The history after recording `entries` one after the other, oldest first. */
  function RecordAll(history: seq<Entry>, entries: seq<Entry>): seq<Entry>
    decreases |entries|
  {
    if entries == [] then history else RecordAll(Record(history, entries[0]), entries[1..])
  }

  function Reversed(s: seq<Entry>): (r: seq<Entry>)
    ensures |r| == |s|
  {
    if s == [] then [] else Reversed(s[1..]) + [s[0]]
  }

  /** Recording one entry is taking the newest entries of the list with the
      entry in front. */
  lemma RecordIsNewest(history: seq<Entry>, entry: Entry)
    ensures Record(history, entry) == Newest([entry] + history)
  {
  }

  /** Truncating before prepending changes nothing that truncating after
      prepending keeps. */
  lemma NewestAbsorbs(a: seq<Entry>, b: seq<Entry>)
    ensures Newest(a + Newest(b)) == Newest(a + b)
  {
  }

  /** Whatever was recorded, the list holds the most recent entries, newest
      first, followed by what was there before, and never more than five. */
  lemma {:induction false} RecordAllKeepsNewest(history: seq<Entry>, entries: seq<Entry>)
    requires |history| <= Capacity
    ensures RecordAll(history, entries) == Newest(Reversed(entries) + history)
    decreases |entries|
  {
    if entries == [] {
      assert Reversed(entries) + history == history;
    } else {
      var e, rest := entries[0], entries[1..];
      RecordAllKeepsNewest(Record(history, e), rest);
      RecordIsNewest(history, e);
      NewestAbsorbs(Reversed(rest), [e] + history);
      assert Reversed(entries) == Reversed(rest) + [e];
      assert Reversed(rest) + ([e] + history) == Reversed(entries) + history;
    }
  }

  /** Six submissions into an empty history leave the last five, newest
      first: the first one is evicted. */
  lemma SixthEvictsOldest(entries: seq<Entry>)
    requires |entries| == Capacity + 1
    ensures RecordAll([], entries) == Reversed(entries[1..])
  {
    RecordAllKeepsNewest([], entries);
    assert Reversed(entries) == Reversed(entries[1..]) + [entries[0]];
    assert Reversed(entries) + [] == Reversed(entries);
  }
}
