/** Polling the same transcripts twice. */
module TranscriptTheorems {
  import opened Transcripts

  /** Items of one gateway listing: nothing essential is missing, and within a device
      conversations differ and so do streams that are set. */
  ghost predicate Listing(items: seq<Item>) {
    && (forall k | 0 <= k < |items| ::
          items[k].device != "" && TranscriptOf(items[k]) != "" && ConversationOf(items[k]) != "")
    && (forall j, k | 0 <= j < k < |items| :: Apart(items[j], items[k]))
  }

  predicate Apart(a: Item, b: Item) {
    a.device == b.device ==>
      ConversationOf(a) != ConversationOf(b) && (a.stream == "" || a.stream != b.stream)
  }

  function EntryOf(i: Item, now: string): Entry {
    Entry(now, i.device, TranscriptOf(i), ResponseOf(i), i.stream, ConversationOf(i))
  }

  function Entries(items: seq<Item>, now: string): seq<Entry> {
    seq(|items|, k requires 0 <= k < |items| => EntryOf(items[k], now))
  }

  lemma ApartMeansNoMatch(a: Item, b: Item, now: string)
    requires Apart(a, b) && ConversationOf(a) != ""
    ensures !Matches(EntryOf(a, now), b.device, ConversationOf(b), b.stream)
    ensures !Matches(EntryOf(b, now), a.device, ConversationOf(a), a.stream)
  {}

  /** What the pages are told of a new item: its transcript, and its response once it is stored. */
  function Announced(i: Item, max: int, now: string): seq<Event> {
    [TranscriptEvent(i.device, TranscriptOf(i), i.stream, ConversationOf(i))]
    + (if max > 0 && ResponseOf(i) != "" then [ResponseEvent(EntryOf(i, now))] else [])
  }

  function AllAnnounced(items: seq<Item>, max: int, now: string): seq<Event> {
    if items == [] then [] else Announced(items[0], max, now) + AllAnnounced(items[1..], max, now)
  }

  // ----- Trimming -----

  lemma TrimTwice(a: seq<Entry>, b: seq<Entry>, max: int)
    ensures Trim(Trim(a, max) + b, max) == Trim(a + b, max)
  {
    if |a| > max && max > 0 {
      assert (a + b)[|a| + |b| - max..] == (a[|a| - max..] + b)[|b|..];
    }
  }

  /** What trimming keeps was there. */
  lemma TrimKeepsTail(a: seq<Entry>, max: int, k: nat)
    requires k < |Trim(a, max)|
    ensures Trim(a, max)[k] == a[|a| - |Trim(a, max)| + k]
  {}

  // ----- One item -----

  lemma FindNothing(entries: seq<Entry>, device: string, conversation: string, stream: string)
    requires forall k | 0 <= k < |entries| :: !Matches(entries[k], device, conversation, stream)
    ensures Find(entries, device, conversation, stream) == -1
  {}

  lemma FindLast(entries: seq<Entry>, e: Entry, device: string, conversation: string, stream: string)
    requires Matches(e, device, conversation, stream)
    ensures Find(entries + [e], device, conversation, stream) == |entries|
  {}

  /** An item no entry matches becomes the newest entry, with its response, and is announced. */
  lemma MergeNew(entries: seq<Entry>, max: int, i: Item, now: string)
    requires i.device != "" && TranscriptOf(i) != "" && ConversationOf(i) != ""
    requires forall k | 0 <= k < |entries| :: !Matches(entries[k], i.device, ConversationOf(i), i.stream)
    ensures Merge(entries, max, i, now) == (Trim(entries + [EntryOf(i, now)], max), Announced(i, max, now))
  {
    hide Matches;
    FindNothing(entries, i.device, ConversationOf(i), i.stream);
    var e := NewEntry(i.device, TranscriptOf(i), i.stream, ConversationOf(i), now);
    var told := [TranscriptEvent(i.device, TranscriptOf(i), i.stream, ConversationOf(i))];
    assert told + [] == told;
    var recorded := Trim(entries + [e], max);
    assert Matches(e, i.device, ConversationOf(i), i.stream) && Matches(e, i.device, ConversationOf(i), "") by {
      NewMatches(i, now);
    }
    if max <= 0 {
      assert recorded == [];
      FindNothing([], i.device, ConversationOf(i), i.stream);
    } else {
      hide Find, Trim;
      var before := Older(entries, max);
      TrimSnoc(entries, e, max);
      TrimSnoc(entries, EntryOf(i, now), max);
      FindLast(before, e, i.device, ConversationOf(i), i.stream);
      FindLast(before, e, i.device, ConversationOf(i), "");
      assert (before + [e])[|before| := EntryOf(i, now)] == before + [EntryOf(i, now)];
    }
  }

  /** What is left of a list when it gets a newer entry. */
  function Older(entries: seq<Entry>, max: int): seq<Entry>
    requires max > 0
  {
    if |entries| < max then entries else entries[|entries| + 1 - max..]
  }

  lemma TrimSnoc(entries: seq<Entry>, e: Entry, max: int)
    requires max > 0
    ensures Trim(entries + [e], max) == Older(entries, max) + [e]
  {}

  lemma NewMatches(i: Item, now: string)
    requires ConversationOf(i) != ""
    ensures var e := NewEntry(i.device, TranscriptOf(i), i.stream, ConversationOf(i), now);
            Matches(e, i.device, ConversationOf(i), i.stream) && Matches(e, i.device, ConversationOf(i), "")
  {}

  /** An item whose entry is there already, without another response, changes nothing. */
  lemma MergeKnown(entries: seq<Entry>, max: int, i: Item, at: nat, now: string)
    requires i.device != "" && ConversationOf(i) != "" && at < |entries|
    requires entries[at].device == i.device && entries[at].conversation == ConversationOf(i)
    requires ResponseOf(i) == "" || ResponseOf(i) == entries[at].response
    requires forall k | at < k < |entries| :: !Matches(entries[k], i.device, ConversationOf(i), i.stream)
    ensures Merge(entries, max, i, now) == (entries, [])
  {
    assert Find(entries, i.device, ConversationOf(i), i.stream) == at;
  }

  // ----- A whole poll -----

  lemma {:induction false} FirstPoll(items: seq<Item>, max: int, k: nat, now: string)
    requires Listing(items) && k <= |items|
    ensures MergeAll(Trim(Entries(items[..k], now), max), max, items[k..], now)
         == (Trim(Entries(items, now), max), AllAnnounced(items[k..], max, now))
    decreases |items| - k
  {
    hide Merge, Trim, Matches, Announced;
    if k == |items| {
      assert items[..k] == items;
    } else {
      var i := items[k];
      var sofar := Entries(items[..k], now);
      var kept := Trim(sofar, max);
      NoneMatches(items, max, k, now);
      MergeNew(kept, max, i, now);
      TrimTwice(sofar, [EntryOf(i, now)], max);
      assert Entries(items[..k + 1], now) == sofar + [EntryOf(i, now)];
      assert items[k..][1..] == items[k + 1..];
      FirstPoll(items, max, k + 1, now);
    }
  }

  /** No earlier item of a listing is taken for the next. */
  lemma NoneMatches(items: seq<Item>, max: int, k: nat, now: string)
    requires Listing(items) && k < |items|
    ensures var kept, i := Trim(Entries(items[..k], now), max), items[k];
            forall j | 0 <= j < |kept| :: !Matches(kept[j], i.device, ConversationOf(i), i.stream)
  {
    hide Trim, Matches;
    var sofar, i := Entries(items[..k], now), items[k];
    var kept := Trim(sofar, max);
    forall j | 0 <= j < |kept| ensures !Matches(kept[j], i.device, ConversationOf(i), i.stream) {
      TrimKeepsTail(sofar, max, j);
      TrimShorter(sofar, max);
      var at := |sofar| - |kept| + j;
      assert Apart(items[at], items[k]);
      ApartMeansNoMatch(items[at], i, now);
    }
  }

  lemma TrimShorter(a: seq<Entry>, max: int)
    ensures |Trim(a, max)| <= |a|
  {}

  /** From nothing, a poll makes the list the newest entries of the listing, in its order, and
      announces all of its items. */
  lemma PollFillsTheList(items: seq<Item>, max: int, now: string)
    requires Listing(items)
    ensures MergeAll([], max, items, now) == (Trim(Entries(items, now), max), AllAnnounced(items, max, now))
    ensures |items| <= max ==> MergeAll([], max, items, now).0 == Entries(items, now)
  {
    FirstPoll(items, max, 0, now);
    assert items[..0] == [] && items[0..] == items && Entries([], now) == [];
    assert Trim([], max) == [];
  }

  /** Polling the same listing again is silent and changes nothing, exactly when the whole
      listing fits: otherwise the entries that fell out come back. */
  lemma SecondPollIsSilent(items: seq<Item>, max: int, was: string, now: string)
    requires Listing(items) && items != []
    ensures var first := MergeAll([], max, items, was).0;
            var (second, events) := MergeAll(first, max, items, now);
            && (events == [] <==> |items| <= max)
            && (|items| <= max ==> second == first)
  {
    hide Merge, Matches;
    PollFillsTheList(items, max, was);
    var first := MergeAll([], max, items, was).0;
    if |items| <= max {
      assert Kept(items, items) == items;
      LaterResponsesAreShown(items, items, max, was, now);
      NothingNew(items, was);
    } else {
      var all := Entries(items, was);
      forall j | 0 <= j < |first|
        ensures !Matches(first[j], items[0].device, ConversationOf(items[0]), items[0].stream)
      {
        TrimKeepsTail(all, max, j);
        var at := |all| - |first| + j;
        assert Apart(items[0], items[at]);
        ApartMeansNoMatch(items[0], items[at], was);
      }
      MergeNew(first, max, items[0], now);
    }
  }

  // ----- A response that comes later -----

  /** An item whose entry is there with another response: the entry alone gets the new one. */
  lemma MergeResponse(entries: seq<Entry>, max: int, i: Item, at: nat, now: string)
    requires i.device != "" && ConversationOf(i) != "" && at < |entries|
    requires entries[at].device == i.device && entries[at].conversation == ConversationOf(i)
    requires ResponseOf(i) != "" && entries[at].response != ResponseOf(i)
    requires forall k | at < k < |entries| :: !Matches(entries[k], i.device, ConversationOf(i), i.stream)
    ensures var e := entries[at].(response := ResponseOf(i));
            Merge(entries, max, i, now) == (entries[at := e], [ResponseEvent(e)])
  {
    assert Find(entries, i.device, ConversationOf(i), i.stream) == at;
    assert Find(entries, i.device, ConversationOf(i), "") == at;
    var e := entries[at].(response := ResponseOf(i));
    assert Respond(entries, i, now) == (entries[at := e], [ResponseEvent(e)]);
    assert [] + [ResponseEvent(e)] == [ResponseEvent(e)];
  }

  /** The same listing with other responses, from its k-th item on. */
  ghost predicate Answered(items: seq<Item>, later: seq<Item>) {
    && |items| == |later|
    && forall k | 0 <= k < |items| ::
         && TranscriptOf(later[k]) == TranscriptOf(items[k]) && ConversationOf(later[k]) == ConversationOf(items[k])
         && later[k].device == items[k].device && later[k].stream == items[k].stream
  }

  /** A response that is missing later does not take an earlier one away. */
  function Kept(items: seq<Item>, later: seq<Item>): seq<Item>
    requires |items| == |later|
  {
    seq(|items|, k requires 0 <= k < |items| => if ResponseOf(later[k]) == "" then items[k] else later[k])
  }

  /** The responses that are new, in the order of the listing. */
  function NewResponses(items: seq<Item>, later: seq<Item>, was: string): seq<Event>
    requires |items| == |later|
  {
    if items == [] then []
    else
      var same := ResponseOf(items[0]) == ResponseOf(later[0]);
      (if same then [] else [ResponseEvent(EntryOf(later[0], was))]) + NewResponses(items[1..], later[1..], was)
  }

  /** The list halfway through a later poll: the first k entries are up to date. */
  function Halfway(items: seq<Item>, later: seq<Item>, k: nat, was: string): seq<Entry>
    requires |items| == |later| && k <= |items|
  {
    Entries(later[..k] + items[k..], was)
  }

  lemma HalfwayStep(items: seq<Item>, later: seq<Item>, k: nat, was: string)
    requires |items| == |later| && k < |items|
    ensures Halfway(items, later, k, was)[k] == EntryOf(items[k], was)
    ensures Halfway(items, later, k + 1, was) == Halfway(items, later, k, was)[k := EntryOf(later[k], was)]
  {
    assert later[..k + 1] + items[k + 1..] == (later[..k] + items[k..])[k := later[k]];
  }

  lemma LaterItem(items: seq<Item>, later: seq<Item>, max: int, k: nat, was: string, now: string)
    requires Listing(items) && Answered(items, later) && k < |items|
    ensures var kept := Kept(items, later);
            Merge(Halfway(items, kept, k, was), max, later[k], now)
            == (Halfway(items, kept, k + 1, was), NewResponses([items[k]], [kept[k]], was))
  {
    hide Merge, Matches, NewResponses;
    var kept := Kept(items, later);
    var entries := Halfway(items, kept, k, was);
    forall j | k < j < |entries|
      ensures !Matches(entries[j], later[k].device, ConversationOf(later[k]), later[k].stream)
    {
      assert (kept[..k] + items[k..])[j] == items[j];
      assert Apart(items[k], items[j]);
      ApartMeansNoMatch(items[k], items[j], was);
      SameMatch(items[j], items[k], later[k], was);
    }
    HalfwayStep(items, kept, k, was);
    hide Halfway;
    OneResponse(items[k], kept[k], was);
    if ResponseOf(later[k]) == "" || ResponseOf(items[k]) == ResponseOf(later[k]) {
      MergeKnown(entries, max, later[k], k, now);
      assert k < |entries| && EntryOf(kept[k], was) == entries[k];
      assert entries[k := entries[k]] == entries;
    } else {
      MergeResponse(entries, max, later[k], k, now);
      assert entries[k].(response := ResponseOf(later[k])) == EntryOf(later[k], was);
    }
  }

  lemma OneResponse(i: Item, later: Item, was: string)
    ensures NewResponses([i], [later], was)
         == if ResponseOf(i) == ResponseOf(later) then [] else [ResponseEvent(EntryOf(later, was))]
  {
    assert [i][1..] == [] && [later][1..] == [] && NewResponses([], [], was) == [];
  }

  lemma {:induction false} LaterPoll(items: seq<Item>, later: seq<Item>, max: int, k: nat, was: string, now: string)
    requires Listing(items) && Answered(items, later) && k <= |items| == |later|
    ensures var kept := Kept(items, later);
            MergeAll(Halfway(items, kept, k, was), max, later[k..], now)
            == (Entries(kept, was), NewResponses(items[k..], kept[k..], was))
    decreases |items| - k
  {
    hide Merge, Listing, Answered, Entries;
    var kept := Kept(items, later);
    if k == |items| {
      assert kept[..k] + items[k..] == kept;
    } else {
      LaterItem(items, later, max, k, was, now);
      LaterPoll(items, later, max, k + 1, was, now);
      hide Halfway;
      assert items[k..][1..] == items[k + 1..] && later[k..][1..] == later[k + 1..] && kept[k..][1..] == kept[k + 1..];
      NewResponsesCons(items[k..], kept[k..], was);
    }
  }

  lemma NewResponsesCons(items: seq<Item>, later: seq<Item>, was: string)
    requires |items| == |later| && items != []
    ensures NewResponses(items, later, was)
         == NewResponses([items[0]], [later[0]], was) + NewResponses(items[1..], later[1..], was)
  {
    assert [items[0]][1..] == [] && NewResponses([], [], was) == [];
  }

  lemma SameMatch(other: Item, a: Item, b: Item, was: string)
    requires a.device == b.device && ConversationOf(a) == ConversationOf(b) && a.stream == b.stream
    ensures Matches(EntryOf(other, was), a.device, ConversationOf(a), a.stream)
       <==> Matches(EntryOf(other, was), b.device, ConversationOf(b), b.stream)
  {}

  lemma {:induction false} NothingNew(items: seq<Item>, was: string)
    ensures NewResponses(items, items, was) == []
  {
    if items != [] {
      NothingNew(items[1..], was);
    }
  }

  /** A later poll of a listing that fits, with other responses: the list shows those that are not
      empty, keeps everything else, and just the new ones are announced. */
  lemma LaterResponsesAreShown(items: seq<Item>, later: seq<Item>, max: int, was: string, now: string)
    requires Listing(items) && Answered(items, later) && |items| <= max
    ensures var first, kept := MergeAll([], max, items, was).0, Kept(items, later);
            MergeAll(first, max, later, now) == (Entries(kept, was), NewResponses(items, kept, was))
  {
    hide Merge, Matches;
    PollFillsTheList(items, max, was);
    var kept := Kept(items, later);
    LaterPoll(items, later, max, 0, was, now);
    assert kept[..0] + items[0..] == items && items[0..] == items && later[0..] == later && kept[0..] == kept;
  }

  /** A recorded transcript is announced with a conversation, given or made up, and the response
      that names it goes to that very entry. */
  lemma ResponseFindsItsTranscript(entries: seq<Entry>, max: int, device: string, transcript: string, stream: string,
      conversation: string, now: string, i: Item, later: string)
    requires transcript != "" && max > 0 && i.device == device
    requires var events := Record(entries, max, device, transcript, stream, conversation, now).1;
             |events| == 1 && events[0].TranscriptEvent? ==> ConversationOf(i) == events[0].conversation
    ensures var (recorded, events) := Record(entries, max, device, transcript, stream, conversation, now);
            var last := |recorded| - 1;
            && |events| == 1 && events[0].TranscriptEvent? && events[0].conversation != ""
            && (conversation != "" ==> events[0].conversation == conversation)
            && 0 <= last && recorded[last].transcript == transcript
            && Respond(recorded, i, later).0 == recorded[last := recorded[last].(response := ResponseOf(i))]
  {
    hide Find, Trim;
    var e := NewEntry(device, transcript, stream, conversation, now);
    assert |device + ":" + now| > 0 && e.conversation != "";
    TrimSnoc(entries, e, max);
    FindLast(Older(entries, max), e, device, e.conversation, "");
  }
}
