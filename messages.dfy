/** The message transforms of `src/utils.ts`: which messages are kept between
    pages, which ids are collected, and how saved history is split by year. */
module Messages {
  import opened Model
  import opened Text
  import opened Seqs

  /** `m.attachments && m.attachments.length > 0` */
  predicate HasAttachments(m: Message)
  {
    m.attachments.Some? && |m.attachments.value| > 0
  }

  /** `getAttachmentMessages`: the messages that carry at least one attachment,
      in their original order. */
  function GetAttachmentMessages(messages: seq<Message>): (r: seq<Message>)
    ensures |r| <= |messages|
  {
    if messages == [] then []
    else
      var last := messages[|messages| - 1];
      GetAttachmentMessages(messages[..|messages| - 1]) + (if HasAttachments(last) then [last] else [])
  }

  /** Every message the filter keeps has an attachment. */
  lemma {:induction false} GetAttachmentMessagesHave(messages: seq<Message>, i: nat)
    requires i < |GetAttachmentMessages(messages)|
    ensures HasAttachments(GetAttachmentMessages(messages)[i])
  {
    var init := messages[..|messages| - 1];
    if i < |GetAttachmentMessages(init)| {
      GetAttachmentMessagesHave(init, i);
    }
  }

  /** The filter keeps exactly the messages that have attachments. */
  lemma {:induction false} GetAttachmentMessagesMembership(messages: seq<Message>, m: Message)
    ensures m in GetAttachmentMessages(messages) <==> m in messages && HasAttachments(m)
  {
    if messages != [] {
      var init := messages[..|messages| - 1];
      GetAttachmentMessagesMembership(init, m);
      assert messages == init + [messages[|messages| - 1]];
    }
  }

  /** The filter works page by page: filtering a concatenation is concatenating
      the filtered parts, so order across pages is kept. */
  lemma {:induction false} GetAttachmentMessagesAppend(a: seq<Message>, b: seq<Message>)
    ensures GetAttachmentMessages(a + b) == GetAttachmentMessages(a) + GetAttachmentMessages(b)
    decreases |b|
  {
    if b != [] {
      var b' := b[..|b| - 1];
      InitOfAppend(a, b);
      GetAttachmentMessagesAppend(a, b');
    } else {
      assert a + b == a;
    }
  }

  lemma {:induction false} GetAttachmentMessagesKeepsAll(messages: seq<Message>)
    requires forall i :: 0 <= i < |messages| ==> HasAttachments(messages[i])
    ensures GetAttachmentMessages(messages) == messages
  {
    if messages != [] {
      var init, last := messages[..|messages| - 1], messages[|messages| - 1];
      assert messages == init + [last];
      GetAttachmentMessagesKeepsAll(init);
    }
  }

  /** The filter leaves a list unchanged exactly when every message in it has
      an attachment. */
  lemma GetAttachmentMessagesIdentity(messages: seq<Message>)
    ensures GetAttachmentMessages(messages) == messages
            <==> forall i :: 0 <= i < |messages| ==> HasAttachments(messages[i])
  {
    if forall i :: 0 <= i < |messages| ==> HasAttachments(messages[i]) {
      GetAttachmentMessagesKeepsAll(messages);
    }
  }

  lemma GetAttachmentMessagesIdempotent(messages: seq<Message>)
    ensures GetAttachmentMessages(GetAttachmentMessages(messages)) == GetAttachmentMessages(messages)
  {
    var kept := GetAttachmentMessages(messages);
    forall i | 0 <= i < |kept|
      ensures HasAttachments(kept[i])
    {
      GetAttachmentMessagesHave(messages, i);
    }
    GetAttachmentMessagesKeepsAll(kept);
  }

  /** `appendMessages`: the accumulator grows by the whole page when history is
      being saved, and by its attachment-bearing messages otherwise. */
  function AppendMessages(allMessages: seq<Message>, messages: seq<Message>, saveChatHistory: bool): (r: seq<Message>)
    ensures |allMessages| <= |r| <= |allMessages| + |messages| && r[..|allMessages|] == allMessages
    ensures saveChatHistory ==> r[|allMessages|..] == messages
    ensures !saveChatHistory ==> r[|allMessages|..] == GetAttachmentMessages(messages)
  {
    if saveChatHistory then allMessages + messages
    else allMessages + GetAttachmentMessages(messages)
  }

  /** The ids of a list of messages, in order (`messages.map(m => m.id)`). */
  function Ids(messages: seq<Message>): (r: seq<string>)
    ensures |r| == |messages|
    ensures forall i :: 0 <= i < |messages| ==> r[i] == messages[i].id
  {
    seq(|messages|, i requires 0 <= i < |messages| => messages[i].id)
  }

  lemma IdsAppend(a: seq<Message>, b: seq<Message>)
    ensures Ids(a + b) == Ids(a) + Ids(b)
  {
  }

  /** `appendMediaMessageIds`: without history saving the list is reset to
      empty, discarding earlier ids; with it, the ids of the page's
      attachment-bearing messages are appended in order. */
  function AppendMediaMessageIds(mediaMessageIds: seq<string>, messages: seq<Message>, saveChatHistory: bool): (r: seq<string>)
    ensures !saveChatHistory ==> r == []
    ensures saveChatHistory ==>
      && |r| == |mediaMessageIds| + |GetAttachmentMessages(messages)|
      && r[..|mediaMessageIds|] == mediaMessageIds
      && forall i :: 0 <= i < |GetAttachmentMessages(messages)| ==>
           r[|mediaMessageIds| + i] == GetAttachmentMessages(messages)[i].id
  {
    if !saveChatHistory then []
    else mediaMessageIds + Ids(GetAttachmentMessages(messages))
  }

  /** The dictionary key of a message's year
      (`new Date(created_at * 1000).getFullYear().toString()`). */
  function YearKey(m: Message, localDate: LocalDate): string
  {
    NatToString(localDate(m.createdAt).year)
  }

  /** The years that occur among `messages`. */
  function Years(messages: seq<Message>, localDate: LocalDate): set<string>
  {
    set m | m in messages :: YearKey(m, localDate)
  }

  lemma YearsSnoc(messages: seq<Message>, m: Message, localDate: LocalDate)
    ensures Years(messages + [m], localDate) == Years(messages, localDate) + {YearKey(m, localDate)}
  {
    var l, r := Years(messages + [m], localDate), Years(messages, localDate) + {YearKey(m, localDate)};
    forall y | y in l ensures y in r {
      var x :| x in messages + [m] && YearKey(x, localDate) == y;
      if x != m { assert x in messages; }
    }
    forall y | y in r ensures y in l {
      if y != YearKey(m, localDate) {
        var x :| x in messages && YearKey(x, localDate) == y;
        assert x in messages + [m];
      } else {
        assert m in messages + [m];
      }
    }
  }

  /** The messages of one year, in their original order. */
  function InYear(messages: seq<Message>, year: string, localDate: LocalDate): seq<Message>
  {
    if messages == [] then []
    else
      var last := messages[|messages| - 1];
      InYear(messages[..|messages| - 1], year, localDate) + (if YearKey(last, localDate) == year then [last] else [])
  }

  lemma InYearSnoc(messages: seq<Message>, m: Message, year: string, localDate: LocalDate)
    ensures InYear(messages + [m], year, localDate)
            == InYear(messages, year, localDate) + (if YearKey(m, localDate) == year then [m] else [])
  {
    assert (messages + [m])[..|messages|] == messages;
  }

  /** A message lands in the bucket of its own year and in no other. */
  lemma {:induction false} InYearMembership(messages: seq<Message>, year: string, localDate: LocalDate, m: Message)
    ensures m in InYear(messages, year, localDate) <==> m in messages && YearKey(m, localDate) == year
  {
    if messages != [] {
      var init := messages[..|messages| - 1];
      InYearMembership(init, year, localDate, m);
      assert messages == init + [messages[|messages| - 1]];
    }
  }

  lemma InYearAbsent(messages: seq<Message>, year: string, localDate: LocalDate)
    requires year !in Years(messages, localDate)
    ensures InYear(messages, year, localDate) == []
  {
    if InYear(messages, year, localDate) != [] {
      InYearMembership(messages, year, localDate, InYear(messages, year, localDate)[0]);
    }
  }

  /** The total size of the buckets of a dictionary. */
  ghost function SumSizes(buckets: map<string, seq<Message>>): nat
    decreases |buckets|
  {
    if buckets == map[] then 0
    else
      var k :| k in buckets;
      assert |buckets - {k}| < |buckets| by {
        assert buckets.Keys - {k} < buckets.Keys;
        assert (buckets - {k}).Keys == buckets.Keys - {k};
      }
      |buckets[k]| + SumSizes(buckets - {k})
  }

  lemma {:induction false} SumSizesRemove(buckets: map<string, seq<Message>>, k: string)
    requires k in buckets
    ensures SumSizes(buckets) == |buckets[k]| + SumSizes(buckets - {k})
    decreases |buckets|
  {
    var j :| j in buckets && SumSizes(buckets) == |buckets[j]| + SumSizes(buckets - {j});
    if j != k {
      assert (buckets - {j}).Keys == buckets.Keys - {j} < buckets.Keys;
      assert (buckets - {k}).Keys == buckets.Keys - {k} < buckets.Keys;
      SumSizesRemove(buckets - {j}, k);
      SumSizesRemove(buckets - {k}, j);
      assert buckets - {j} - {k} == buckets - {k} - {j};
    }
  }

  /** Pushing one message into a bucket (creating it if needed) adds one to
      the total size. */
  lemma SumSizesPush(buckets: map<string, seq<Message>>, k: string, m: Message)
    ensures SumSizes(buckets[k := (if k in buckets then buckets[k] else []) + [m]]) == SumSizes(buckets) + 1
  {
    var updated := buckets[k := (if k in buckets then buckets[k] else []) + [m]];
    SumSizesRemove(updated, k);
    assert updated - {k} == buckets - {k};
    if k in buckets {
      SumSizesRemove(buckets, k);
    } else {
      assert buckets - {k} == buckets;
    }
  }

  /** What `groupMessagesByYear` knows of its dictionary after the messages
      `prefix`. */
  ghost predicate GroupedSoFar(byYear: map<string, seq<Message>>, prefix: seq<Message>, localDate: LocalDate)
  {
    && byYear.Keys == Years(prefix, localDate)
    && (forall y :: y in byYear ==> byYear[y] == InYear(prefix, y, localDate))
    && (forall y :: y in byYear ==> byYear[y] != [])
    && SumSizes(byYear) == |prefix|
  }

  /** One iteration of the grouping loop keeps `GroupedSoFar`. */
  lemma GroupStep(byYear: map<string, seq<Message>>, prefix: seq<Message>, message: Message, localDate: LocalDate)
    requires GroupedSoFar(byYear, prefix, localDate)
    ensures var year := YearKey(message, localDate);
            GroupedSoFar(byYear[year := (if year in byYear then byYear[year] else []) + [message]],
                         prefix + [message], localDate)
  {
    var year := YearKey(message, localDate);
    var next := byYear[year := (if year in byYear then byYear[year] else []) + [message]];
    KeysStep(byYear, prefix, message, localDate);
    SumSizesPush(byYear, year, message);
    BucketsStep(byYear, prefix, message, localDate);
    NonEmptyStep(byYear, year, message);
  }

  lemma KeysStep(byYear: map<string, seq<Message>>, prefix: seq<Message>, message: Message, localDate: LocalDate)
    requires byYear.Keys == Years(prefix, localDate)
    ensures var year := YearKey(message, localDate);
            var next := byYear[year := (if year in byYear then byYear[year] else []) + [message]];
            next.Keys == Years(prefix + [message], localDate)
  {
    YearsSnoc(prefix, message, localDate);
  }

  lemma NonEmptyStep(byYear: map<string, seq<Message>>, year: string, message: Message)
    requires forall y :: y in byYear ==> byYear[y] != []
    ensures var next := byYear[year := (if year in byYear then byYear[year] else []) + [message]];
            forall y :: y in next ==> next[y] != []
  {
  }

  lemma BucketsStep(byYear: map<string, seq<Message>>, prefix: seq<Message>, message: Message, localDate: LocalDate)
    requires byYear.Keys == Years(prefix, localDate)
    requires forall y :: y in byYear ==> byYear[y] == InYear(prefix, y, localDate)
    ensures var year := YearKey(message, localDate);
            var next := byYear[year := (if year in byYear then byYear[year] else []) + [message]];
            forall y :: y in next ==> next[y] == InYear(prefix + [message], y, localDate)
  {
    var year := YearKey(message, localDate);
    var next := byYear[year := (if year in byYear then byYear[year] else []) + [message]];
    forall y | y in next ensures next[y] == InYear(prefix + [message], y, localDate) {
      InYearSnoc(prefix, message, y, localDate);
      if y == year && year !in byYear {
        InYearAbsent(prefix, year, localDate);
      }
    }
  }

  /** `groupMessagesByYear`: one bucket per year that occurs, holding exactly
      that year's messages in their original order; no bucket is empty and the
      bucket sizes add up to the number of messages. */
  method GroupMessagesByYear(messages: seq<Message>, localDate: LocalDate) returns (byYear: map<string, seq<Message>>)
    ensures byYear.Keys == Years(messages, localDate)
    ensures forall y :: y in byYear ==> byYear[y] == InYear(messages, y, localDate)
    ensures forall y :: y in byYear ==> byYear[y] != []
    ensures SumSizes(byYear) == |messages|
  {
    byYear := map[];
    for i := 0 to |messages|
      invariant GroupedSoFar(byYear, messages[..i], localDate)
    {
      var message := messages[i];
      var year := YearKey(message, localDate);
      assert messages[..i + 1] == messages[..i] + [message];
      GroupStep(byYear, messages[..i], message, localDate);
      // a missing bucket is created empty, then the message is pushed
      var bucket := if year in byYear then byYear[year] else [];
      byYear := byYear[year := bucket + [message]];
    }
    assert messages[..|messages|] == messages;
  }
}
