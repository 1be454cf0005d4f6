/** `getMediaFiles` of `src/utils.ts`: the media descriptors of a list of
    messages. */
module Media {
  import opened Model
  import Messages
  import opened Seqs

  /** `m.attachments || []` */
  function AttachmentsOf(m: Message): seq<Attachment>
  {
    if m.attachments.Some? then m.attachments.value else []
  }

  /** The descriptor of one attachment, which takes its date from the message
      that carries it. Only the tag "image" is a photo; every other tag is
      filed as a video. */
  function ToMediaFile(a: Attachment, createdAt: int, localDate: LocalDate): (f: MediaFile)
    ensures f.mediaType == Photo <==> a.kind == "image"
    ensures f.mediaExt == (if a.kind == "image" then ".jpeg" else ".mp4")
    ensures f.mediaUrl == a.url && f.sentAt == localDate(createdAt)
  {
    var t := if a.kind == "image" then Photo else Video;
    MediaFile(t, a.url, ExtFor(t), localDate(createdAt))
  }

  function MediaOf(m: Message, localDate: LocalDate): (r: seq<MediaFile>)
    ensures |r| == |AttachmentsOf(m)|
  {
    var atts := AttachmentsOf(m);
    seq(|atts|, j requires 0 <= j < |atts| => ToMediaFile(atts[j], m.createdAt, localDate))
  }

  /** Number of attachments over all messages. */
  function TotalAttachments(messages: seq<Message>): nat
  {
    if messages == [] then 0
    else TotalAttachments(messages[..|messages| - 1]) + |AttachmentsOf(messages[|messages| - 1])|
  }

  /** `getMediaFiles`. The id list is accepted and, as in the source, has no
      effect: the filtered array at utils.ts line 185 is discarded. */
  function GetMediaFiles(mediaMessageIds: seq<string>, allMessages: seq<Message>, localDate: LocalDate): (r: seq<MediaFile>)
    ensures |r| == TotalAttachments(allMessages)
  {
    if allMessages == [] then []
    else
      GetMediaFiles(mediaMessageIds, allMessages[..|allMessages| - 1], localDate)
      + MediaOf(allMessages[|allMessages| - 1], localDate)
  }

  /** Every descriptor carries the extension of its type and a calendar date. */
  lemma {:induction false} GetMediaFilesWellFormed(ids: seq<string>, allMessages: seq<Message>, localDate: LocalDate, k: nat)
    requires k < |GetMediaFiles(ids, allMessages, localDate)|
    ensures WellFormed(GetMediaFiles(ids, allMessages, localDate)[k])
  {
    var init := allMessages[..|allMessages| - 1];
    if k < |GetMediaFiles(ids, init, localDate)| {
      GetMediaFilesWellFormed(ids, init, localDate, k);
    }
  }

  /** The descriptor list does not depend on the id list. */
  lemma {:induction false} GetMediaFilesIgnoresIds(ids1: seq<string>, ids2: seq<string>, allMessages: seq<Message>, localDate: LocalDate)
    ensures GetMediaFiles(ids1, allMessages, localDate) == GetMediaFiles(ids2, allMessages, localDate)
  {
    if allMessages != [] {
      GetMediaFilesIgnoresIds(ids1, ids2, allMessages[..|allMessages| - 1], localDate);
    }
  }

  /** Messages are visited in order: the descriptors of a concatenation are
      the concatenated descriptors. */
  lemma {:induction false} GetMediaFilesAppend(ids: seq<string>, a: seq<Message>, b: seq<Message>, localDate: LocalDate)
    ensures GetMediaFiles(ids, a + b, localDate) == GetMediaFiles(ids, a, localDate) + GetMediaFiles(ids, b, localDate)
    decreases |b|
  {
    if b == [] {
      assert a + b == a;
    } else {
      var b' := b[..|b| - 1];
      InitOfAppend(a, b);
      GetMediaFilesAppend(ids, a, b', localDate);
      AppendAssoc(GetMediaFiles(ids, a, localDate), GetMediaFiles(ids, b', localDate), MediaOf(b[|b| - 1], localDate));
    }
  }

  /** Emission order is message order times attachment order: attachment `j`
      of message `i` is the descriptor right after the attachments of the
      first `i` messages. */
  lemma {:induction false} GetMediaFilesAt(ids: seq<string>, allMessages: seq<Message>, localDate: LocalDate, i: nat, j: nat)
    requires i < |allMessages| && j < |AttachmentsOf(allMessages[i])|
    ensures TotalAttachments(allMessages[..i]) + j < |GetMediaFiles(ids, allMessages, localDate)|
    ensures GetMediaFiles(ids, allMessages, localDate)[TotalAttachments(allMessages[..i]) + j]
            == ToMediaFile(AttachmentsOf(allMessages[i])[j], allMessages[i].createdAt, localDate)
  {
    var init := allMessages[..|allMessages| - 1];
    if i < |init| {
      GetMediaFilesAt(ids, init, localDate, i, j);
      assert init[..i] == allMessages[..i] && init[i] == allMessages[i];
      GetMediaFilesKeeps(ids, allMessages, localDate, TotalAttachments(init[..i]) + j);
    } else {
      assert init == allMessages[..i];
      GetMediaFilesLast(ids, allMessages, localDate, j);
    }
  }

  /** The descriptors of the last message come last. */
  lemma GetMediaFilesLast(ids: seq<string>, allMessages: seq<Message>, localDate: LocalDate, j: nat)
    requires allMessages != [] && j < |AttachmentsOf(allMessages[|allMessages| - 1])|
    ensures var init := allMessages[..|allMessages| - 1];
            var last := allMessages[|allMessages| - 1];
            && TotalAttachments(init) + j < |GetMediaFiles(ids, allMessages, localDate)|
            && GetMediaFiles(ids, allMessages, localDate)[TotalAttachments(init) + j]
               == ToMediaFile(AttachmentsOf(last)[j], last.createdAt, localDate)
  {
    var init, last := allMessages[..|allMessages| - 1], allMessages[|allMessages| - 1];
    var before, here := GetMediaFiles(ids, init, localDate), MediaOf(last, localDate);
    assert GetMediaFiles(ids, allMessages, localDate) == before + here;
    assert (before + here)[|before| + j] == here[j];
  }

  /** Descriptors of earlier messages keep their places when one more
      message is visited. */
  lemma GetMediaFilesKeeps(ids: seq<string>, allMessages: seq<Message>, localDate: LocalDate, k: nat)
    requires allMessages != [] && k < |GetMediaFiles(ids, allMessages[..|allMessages| - 1], localDate)|
    ensures GetMediaFiles(ids, allMessages, localDate)[k] == GetMediaFiles(ids, allMessages[..|allMessages| - 1], localDate)[k]
  {
  }

  /** Messages without attachments contribute nothing; so the descriptors are
      the same whether or not the accumulator kept those messages. */
  lemma {:induction false} GetMediaFilesOfAttachmentMessages(ids: seq<string>, allMessages: seq<Message>, localDate: LocalDate)
    ensures GetMediaFiles(ids, Messages.GetAttachmentMessages(allMessages), localDate)
            == GetMediaFiles(ids, allMessages, localDate)
  {
    if allMessages != [] {
      var init, last := allMessages[..|allMessages| - 1], allMessages[|allMessages| - 1];
      GetMediaFilesOfAttachmentMessages(ids, init, localDate);
      var kept := if Messages.HasAttachments(last) then [last] else [];
      GetMediaFilesAppend(ids, Messages.GetAttachmentMessages(init), kept, localDate);
      if kept == [] {
        assert GetMediaFiles(ids, kept, localDate) == [];
        assert MediaOf(last, localDate) == [];
      } else {
        assert kept[..0] == [];
      }
    }
  }
}
