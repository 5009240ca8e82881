/** The session store: the capped prompt history, the user-template list
    operations and the fallback decision of `loadFromLocalStorage`. */
module Store {
  import opened Seqs
  import opened Config
  import opened Templates

  /** `PromptHistoryItem`: a render, with a copy of the configuration it used. */
  datatype HistoryItem = HistoryItem(
    id: string, timestamp: string, formData: FormData, templateKey: string, name: string)

  /** `MAX_HISTORY_ITEMS`. */
  const MaxHistoryItems: nat := 20

  function Min(a: int, b: int): int {
    if a <= b then a else b
  }

  /** `[item, ...prev.slice(0, MAX_HISTORY_ITEMS - 1)]`: the new item first,
      then the newest previous items in their order, at most twenty in all. */
  function Prepend(item: HistoryItem, prev: seq<HistoryItem>): (r: seq<HistoryItem>)
    ensures |r| == Min(|prev| + 1, MaxHistoryItems)
    ensures r[0] == item
    ensures r[1..] == prev[..|r| - 1]
  {
    [item] + prev[..Min(|prev|, MaxHistoryItems - 1)]
  }

  /** The history after rendering `items` one after the other. */
  function RecordAll(history: seq<HistoryItem>, items: seq<HistoryItem>): seq<HistoryItem>
    decreases |items|
  {
    if items == [] then history else RecordAll(Prepend(items[0], history), items[1..])
  }

  function Reverse<T>(xs: seq<T>): (r: seq<T>)
    ensures |r| == |xs|
    ensures forall i :: 0 <= i < |xs| ==> r[i] == xs[|xs| - 1 - i]
  {
    if xs == [] then [] else Reverse(xs[1..]) + [xs[0]]
  }

  /** Taking a prefix of the tail, after something in front, is a prefix. */
  lemma PrefixOfPrefix(r: seq<HistoryItem>, x: HistoryItem, h: seq<HistoryItem>)
    requires r != []
    ensures (r + ([x] + h)[..Min(|h| + 1, MaxHistoryItems)])[..Min(|r| + Min(|h| + 1, MaxHistoryItems), MaxHistoryItems)]
         == (r + [x] + h)[..Min(|r| + 1 + |h|, MaxHistoryItems)]
  {
    var m := Min(|h| + 1, MaxHistoryItems);
    var a := (r + ([x] + h)[..m])[..Min(|r| + m, MaxHistoryItems)];
    var b := (r + [x] + h)[..Min(|r| + 1 + |h|, MaxHistoryItems)];
    assert |a| == |b|;
    forall i | 0 <= i < |a| ensures a[i] == b[i] {
      if i >= |r| {
        assert a[i] == ([x] + h)[i - |r|];
      }
    }
  }

  /** Rendering a non-empty run of items leaves the newest first, followed by
      the older history, cut to twenty. */
  lemma {:induction false} RecordAllKeepsNewest(history: seq<HistoryItem>, items: seq<HistoryItem>)
    requires items != []
    ensures RecordAll(history, items)
         == (Reverse(items) + history)[..Min(|items| + |history|, MaxHistoryItems)]
    decreases |items|
  {
    var x := items[0];
    var next := Prepend(x, history);
    assert next == ([x] + history)[..Min(|history| + 1, MaxHistoryItems)];
    if items[1..] == [] {
      assert Reverse(items) == [x];
    } else {
      RecordAllKeepsNewest(next, items[1..]);
      var r := Reverse(items[1..]);
      assert Reverse(items) == r + [x];
      PrefixOfPrefix(r, x, history);
      assert r + [x] + history == Reverse(items) + history;
    }
  }

  /** After twenty or more renders the history holds exactly the twenty most
      recent items, the most recent first. */
  lemma HistoryKeepsTwentyNewest(history: seq<HistoryItem>, items: seq<HistoryItem>)
    requires |items| >= MaxHistoryItems
    ensures |RecordAll(history, items)| == MaxHistoryItems
    ensures RecordAll(history, items) == Reverse(items)[..MaxHistoryItems]
  {
    RecordAllKeepsNewest(history, items);
    var all := Reverse(items) + history;
    assert all[..MaxHistoryItems] == Reverse(items)[..MaxHistoryItems];
  }

  /** `promptHistory.find(item => item.id === id)`. */
  function FindHistoryItem(history: seq<HistoryItem>, id: string): (r: Option<HistoryItem>)
    ensures r.Some? ==> r.value in history && r.value.id == id
    ensures r.Some? ==> exists i :: 0 <= i < |history| && history[i] == r.value && forall j :: 0 <= j < i ==> history[j].id != id
    ensures r.None? <==> forall i :: 0 <= i < |history| ==> history[i].id != id
  {
    Find(history, (item: HistoryItem) => item.id == id)
  }

  /** The item just recorded is the one its id finds, whatever older items
      share that id. */
  lemma NewestFoundFirst(item: HistoryItem, prev: seq<HistoryItem>)
    ensures FindHistoryItem(Prepend(item, prev), item.id) == Some(item)
  {
    var h := Prepend(item, prev);
    assert h[0] == item;
    assert FindIndex(h, (x: HistoryItem) => x.id == item.id) == Some(0);
  }

  /** `prev.filter(t => t.id !== id)`: every template with that id goes, the
      others stay in order, each as often as before. */
  function RemoveTemplate(users: seq<UserTemplate>, id: string): (r: seq<UserTemplate>)
    ensures forall i :: 0 <= i < |r| ==> r[i].id != id && r[i] in users
    ensures forall i :: 0 <= i < |users| && users[i].id != id ==> users[i] in r
    ensures forall u: UserTemplate :: u.id != id ==> multiset(r)[u] == multiset(users)[u]
    ensures r == Filter(users, (t: UserTemplate) => t.id != id)
  {
    var keep := (t: UserTemplate) => t.id != id;
    forall u: UserTemplate | u.id != id ensures multiset(Filter(users, keep))[u] == multiset(users)[u] {
      FilterCount(users, keep, u);
    }
    Filter(users, keep)
  }

  /** Removing an id no template has changes nothing. */
  lemma RemoveAbsent(users: seq<UserTemplate>, id: string)
    requires forall i :: 0 <= i < |users| ==> users[i].id != id
    ensures RemoveTemplate(users, id) == users
  {
    FilterKeepsAll(users, (t: UserTemplate) => t.id != id);
  }

  /** What reading a stored array can come to: nothing under the key, text
      that does not parse, a parsed value that is not an array, or an array. */
  datatype Stored<T> = Absent | Unparsable | NotAnArray | AnArray(items: seq<T>)

  /** `loadFromLocalStorage(key, [])`: the parsed array, or the default in
      each of the three failure cases. */
  function LoadArray<T>(stored: Stored<T>, default: seq<T>): (r: seq<T>)
    ensures stored.AnArray? ==> r == stored.items
    ensures stored.Absent? || stored.Unparsable? || stored.NotAnArray? ==> r == default
  {
    match stored
    case Absent => default
    case Unparsable => default
    case NotAnArray => default
    case AnArray(items) => items
  }
}
