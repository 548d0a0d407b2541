/**
 * The search-history store of the application's top-level component: an
 * ordered list of saved words, most recent new word first, at most one entry
 * per case-insensitive word, mirrored into durable storage.
 */
module History {
  import opened Wrappers
  import opened Text

  /** One saved word: the word as first typed, its first sense, and the save time in epoch milliseconds. */
  datatype Item = Item(word: string, definition: string, timestamp: int)

  /**
   * What the application finds under its storage key once decoded: text that
   * does not parse, a parsed value that is not an array, or an array of entries.
   */
  datatype Snapshot = Unparsable | NotArray | ItemArray(items: seq<Item>)

  /** The identity of history entries: words that are equal once lower-cased. */
  predicate SameWord(a: string, b: string) {
    Lower(a) == Lower(b)
  }

  /** `history.some(item => item.word.toLowerCase() === word.toLowerCase())` */
  predicate HasWord(h: seq<Item>, word: string) {
    exists i :: 0 <= i < |h| && SameWord(h[i].word, word)
  }

  /** The store's invariant: no two entries share a case-insensitive word. */
  predicate Unique(h: seq<Item>) {
    forall i, j :: 0 <= i < j < |h| ==> !SameWord(h[i].word, h[j].word)
  }

  /**
   * The update path of a save: every entry whose word matches takes the new
   * definition and time stamp and keeps its word and its place; every other
   * entry is left as it was.
   */
  function RefreshMatches(h: seq<Item>, word: string, definition: string, now: int): (r: seq<Item>)
    ensures |r| == |h|
    ensures forall i :: 0 <= i < |h| ==>
      r[i].word == h[i].word &&
      (SameWord(h[i].word, word) ==> r[i].definition == definition && r[i].timestamp == now) &&
      (!SameWord(h[i].word, word) ==> r[i] == h[i])
  {
    if h == [] then []
    else
      var head := if SameWord(h[0].word, word) then h[0].(definition := definition, timestamp := now) else h[0];
      [head] + RefreshMatches(h[1..], word, definition, now)
  }

  /**
   * Saving `word` with `definition` at time `now`: afterwards the word is
   * present with that definition and time; a new word adds exactly one entry,
   * a known word adds none; and every entry of another word survives.
   */
  function Upsert(h: seq<Item>, word: string, definition: string, now: int): (r: seq<Item>)
    ensures |r| == if HasWord(h, word) then |h| else |h| + 1
    ensures exists i :: 0 <= i < |r| && SameWord(r[i].word, word) && r[i].definition == definition && r[i].timestamp == now
    ensures forall x :: x in h && !SameWord(x.word, word) ==> x in r
  {
    if HasWord(h, word) then
      var r := RefreshMatches(h, word, definition, now);
      var i :| 0 <= i < |h| && SameWord(h[i].word, word);
      assert r[i].word == h[i].word;
      r
    else
      var r := [Item(word, definition, now)] + h;
      assert r[0].word == word;
      r
  }

  /** A word with no case-insensitive match is prepended and the old list follows unchanged. */
  lemma UpsertNewWord(h: seq<Item>, word: string, definition: string, now: int)
    requires !HasWord(h, word)
    ensures var r := Upsert(h, word, definition, now);
      |r| == |h| + 1 && r[0] == Item(word, definition, now) && r[1..] == h
  {
  }

  /**
   * A word that matches keeps the list's length and every entry's word, so the
   * casing first saved is retained; matching entries take the new definition
   * and `now`, all others are untouched.
   */
  lemma UpsertKnownWord(h: seq<Item>, word: string, definition: string, now: int)
    requires HasWord(h, word)
    ensures var r := Upsert(h, word, definition, now);
      |r| == |h| &&
      forall i :: 0 <= i < |h| ==>
        r[i].word == h[i].word &&
        (SameWord(h[i].word, word) ==> r[i].definition == definition && r[i].timestamp == now) &&
        (!SameWord(h[i].word, word) ==> r[i] == h[i])
  {
  }

  /** Saving keeps the store free of case-insensitive duplicates. */
  lemma UpsertKeepsUnique(h: seq<Item>, word: string, definition: string, now: int)
    requires Unique(h)
    ensures Unique(Upsert(h, word, definition, now))
  {
  }

  /**
   * Under the invariant, saving a known word rewrites exactly one entry in
   * place: the one that matches.
   */
  lemma UpsertUniqueRewritesOne(h: seq<Item>, word: string, definition: string, now: int)
    requires Unique(h) && HasWord(h, word)
    ensures exists k :: (0 <= k < |h| && SameWord(h[k].word, word) &&
      Upsert(h, word, definition, now) == h[k := h[k].(definition := definition, timestamp := now)])
  {
  }

  /**
   * Save "run" at 1000, "jump" at 2000, then "run" again at 3000: the new word
   * goes in front, and the re-saved word keeps its slot with new content.
   */
  lemma ResaveKeepsSlot()
    ensures var h1 := Upsert([], "run", "to move fast", 1000);
      var h2 := Upsert(h1, "jump", "to leap", 2000);
      var h3 := Upsert(h2, "run", "to operate", 3000);
      h1 == [Item("run", "to move fast", 1000)] &&
      h2 == [Item("jump", "to leap", 2000), Item("run", "to move fast", 1000)] &&
      h3 == [Item("jump", "to leap", 2000), Item("run", "to operate", 3000)]
  {
    var run := Item("run", "to move fast", 1000);
    var jump := Item("jump", "to leap", 2000);
    assert Upsert([], "run", "to move fast", 1000) == [run];
    assert !SameWord("run", "jump") by {
      assert Lower("run")[0] == 'r' && Lower("jump")[0] == 'j';
    }
    assert Upsert([run], "jump", "to leap", 2000) == [jump, run] by {
      UpsertNewWord([run], "jump", "to leap", 2000);
    }
    assert Upsert([jump, run], "run", "to operate", 3000) == [jump, run.(definition := "to operate", timestamp := 3000)] by {
      assert SameWord([jump, run][1].word, "run");
      UpsertKnownWord([jump, run], "run", "to operate", 3000);
    }
  }

  /** Saving "Cat" and then "cat" leaves one entry, still spelled "Cat", with the second save's content. */
  lemma CaseInsensitiveResave()
    ensures Upsert(Upsert([], "Cat", "a pet", 1), "cat", "a feline", 2) == [Item("Cat", "a feline", 2)]
  {
  }

  /**
   * `history.filter(item => item.timestamp !== t)`: the result holds exactly
   * the entries whose time stamp is not `t`.
   */
  function RemoveStamp(h: seq<Item>, t: int): (r: seq<Item>)
    ensures |r| <= |h|
    ensures forall x :: x in r <==> x in h && x.timestamp != t
  {
    if h == [] then []
    else if h[0].timestamp == t then RemoveStamp(h[1..], t)
    else [h[0]] + RemoveStamp(h[1..], t)
  }

  /** Removal keeps relative order: it distributes over concatenation. */
  lemma {:induction false} RemoveConcat(a: seq<Item>, b: seq<Item>, t: int)
    ensures RemoveStamp(a + b, t) == RemoveStamp(a, t) + RemoveStamp(b, t)
  {
    if a != [] {
      assert (a + b)[0] == a[0] && (a + b)[1..] == a[1..] + b;
      RemoveConcat(a[1..], b, t);
    } else {
      assert a + b == b;
    }
  }

  /** Removing a time stamp no entry carries leaves the list as it was. */
  lemma {:induction false} RemoveAbsent(h: seq<Item>, t: int)
    requires forall x :: x in h ==> x.timestamp != t
    ensures RemoveStamp(h, t) == h
  {
    if h != [] {
      assert h[0] in h;
      assert forall x :: x in h[1..] ==> x in h;
      RemoveAbsent(h[1..], t);
      assert [h[0]] + h[1..] == h;
    }
  }

  /** Removing the same time stamp twice is removing it once. */
  lemma RemoveIdempotent(h: seq<Item>, t: int)
    ensures RemoveStamp(RemoveStamp(h, t), t) == RemoveStamp(h, t)
  {
  }

  /** Dropping the first entry keeps the invariant. */
  lemma UniqueTail(h: seq<Item>)
    requires Unique(h) && h != []
    ensures Unique(h[1..])
  {
    var tail := h[1..];
    forall i, j | 0 <= i < j < |tail| ensures !SameWord(tail[i].word, tail[j].word) {
      assert tail[i] == h[i + 1] && tail[j] == h[j + 1];
    }
  }

  /** An entry whose word matches none of a duplicate-free list can be put in front of it. */
  lemma UniqueCons(x: Item, s: seq<Item>)
    requires Unique(s)
    requires forall y :: y in s ==> !SameWord(x.word, y.word)
    ensures Unique([x] + s)
  {
    var r := [x] + s;
    forall i, j | 0 <= i < j < |r| ensures !SameWord(r[i].word, r[j].word) {
      assert r[j] == s[j - 1];
      if i > 0 {
        assert r[i] == s[i - 1];
      } else {
        assert r[j] in s;
      }
    }
  }

  /** Removal keeps the store free of case-insensitive duplicates. */
  lemma {:induction false} RemoveKeepsUnique(h: seq<Item>, t: int)
    requires Unique(h)
    ensures Unique(RemoveStamp(h, t))
  {
    if h != [] {
      var tail := h[1..];
      UniqueTail(h);
      RemoveKeepsUnique(tail, t);
      if h[0].timestamp != t {
        var rest := RemoveStamp(tail, t);
        forall y | y in rest ensures !SameWord(h[0].word, y.word) {
          var m :| 0 <= m < |tail| && tail[m] == y;
          assert h[m + 1] == y;
        }
        UniqueCons(h[0], rest);
      }
    }
  }

  /** The effect that mirrors the history into storage: it writes only a non-empty list. */
  function Mirror(stored: Option<Snapshot>, h: seq<Item>): (r: Option<Snapshot>)
    ensures h != [] ==> r == Some(ItemArray(h))
    ensures h == [] ==> r == stored
  {
    if |h| > 0 then Some(ItemArray(h)) else stored
  }

  /**
   * Start-up: the stored array if the storage key holds one, otherwise the
   * empty history (key absent, text that does not parse, or not an array).
   */
  function Rehydrate(stored: Option<Snapshot>): (r: seq<Item>)
    ensures (stored.Some? && stored.value.ItemArray?) ==> r == stored.value.items
    ensures !(stored.Some? && stored.value.ItemArray?) ==> r == []
  {
    match stored
    case Some(ItemArray(items)) => items
    case _ => []
  }

  /** Reloading after a write of a non-empty history gives back that history, element for element. */
  lemma ReloadRoundTrip(stored: Option<Snapshot>, h: seq<Item>)
    requires h != []
    ensures Rehydrate(Mirror(stored, h)) == h
  {
  }

  /**
   * Removing the last entry is not persisted: a reload brings the removed
   * entry back. (As written in the source; see `MirrorEveryChange`.)
   */
  lemma RemovingLastEntryIsUndoneByReload(x: Item)
    ensures var stored := Mirror(None, [x]);
      var h := RemoveStamp([x], x.timestamp);
      h == [] && Rehydrate(Mirror(stored, h)) == [x]
  {
  }

  /** The mirror that writes after every change, the empty history included. */
  function MirrorEveryChange(h: seq<Item>): (r: Option<Snapshot>)
    ensures r.Some? && r.value.ItemArray?
  {
    Some(ItemArray(h))
  }

  /** With `MirrorEveryChange`, a reload gives back every history, the empty one too. */
  lemma ReloadRoundTripEveryChange(h: seq<Item>)
    ensures Rehydrate(MirrorEveryChange(h)) == h
  {
  }

  /**
   * The history owned by the application, with its storage mirror. The clock
   * is a parameter: `now` is the time of the save. So is the success of the
   * storage write: `written` is false when `localStorage.setItem` throws
   * (quota exceeded, storage disabled), which the effect catches, leaving
   * storage as it was.
   */
  class HistoryStore {
    var history: seq<Item>
    var stored: Option<Snapshot>

    /** The storage holds the current history whenever it is non-empty. */
    ghost predicate Valid()
      reads this
    {
      history != [] ==> stored == Some(ItemArray(history))
    }

    /** Rehydrates from what the storage holds, then runs the mirror effect once, as on mount. */
    constructor (saved: Option<Snapshot>, written: bool)
      ensures history == Rehydrate(saved)
      ensures stored == if written then Mirror(saved, history) else saved
      ensures written ==> Valid()
    {
      history := Rehydrate(saved);
      stored := saved;
      new;
      Persist(written);
    }

    /**
     * The mirror effect: write the whole list, but only when it is non-empty;
     * a write that throws leaves storage as it was.
     */
    method Persist(written: bool)
      modifies this`stored
      ensures stored == if written then Mirror(old(stored), history) else old(stored)
      ensures written ==> Valid()
    {
      if |history| > 0 {
        if written {
          stored := Some(ItemArray(history));
        }
      }
    }

    /** Saves a word and its first sense, then mirrors the history into storage. */
    method SaveToHistory(word: string, definition: string, now: int, written: bool)
      modifies this
      ensures history == Upsert(old(history), word, definition, now)
      ensures stored == if written then Some(ItemArray(history)) else old(stored)
      ensures Unique(old(history)) ==> Unique(history)
      ensures written ==> Valid()
    {
      var newItem := Item(word, definition, now);
      var known := HasWord(history, word);
      if known {
        history := RefreshMatches(history, word, definition, now);
      } else {
        history := [newItem] + history;
      }
      if Unique(old(history)) {
        UpsertKeepsUnique(old(history), word, definition, now);
      }
      Persist(written);
    }

    /**
     * Removes every entry saved at time `t`, then mirrors the history into
     * storage. Removing the last entries writes nothing, so storage keeps the
     * list as it was before the removal.
     */
    method RemoveFromHistory(t: int, written: bool)
      modifies this
      ensures history == RemoveStamp(old(history), t)
      ensures stored == if written then Mirror(old(stored), history) else old(stored)
      ensures Unique(old(history)) ==> Unique(history)
      ensures written ==> Valid()
      ensures old(Valid()) && old(history) != [] && history == [] ==> stored == Some(ItemArray(old(history)))
    {
      history := RemoveStamp(history, t);
      if Unique(old(history)) {
        RemoveKeepsUnique(old(history), t);
      }
      Persist(written);
    }
  }
}
