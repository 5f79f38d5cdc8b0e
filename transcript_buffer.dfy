/** The transcript debounce of components/ui/AccountForms/MessagesForm.tsx:
    final speech-to-text fragments are trimmed and appended to a buffer
    (one space between fragments), each final fragment replaces the single
    pending save timer with one due 2 s later, and when the timer fires the
    whole buffer is handed to `processMessage` as one transcript message and
    the buffer is emptied. Time is the parameter `now` of each event. */
module TranscriptBuffer {
  import opened Wrappers
  import opened Text

  const SaveDelay: int := 2000

  /** What the timer callback passes to `processMessage`. */
  datatype TranscriptMessage = TranscriptMessage(text: string, userId: string, broadcasterId: string,
                                                 chatterName: string, chatterId: string)

  /** A trimmed, non-empty fragment. */
  predicate IsFragment(f: string) {
    f != "" && !IsSpace(f[0]) && !IsSpace(f[|f| - 1])
  }

  class Debouncer {
    /** The signed-in user: `user.id`, `user_metadata.provider_id` and
        `user_metadata.name`. */
    const userId: string
    const providerId: string
    const userName: string

    var transcriptBuffer: string
    /** When the pending save fires, if one is pending. */
    var saveDue: Option<int>
    var caption: Option<string>
    /** The messages handed to `processMessage`, oldest first. */
    var submitted: seq<TranscriptMessage>
    /** The final fragments buffered since the last flush. */
    ghost var fragments: seq<string>

    ghost predicate Valid()
      reads this
    {
      && transcriptBuffer == Join(fragments, " ")
      && (forall i :: 0 <= i < |fragments| ==> IsFragment(fragments[i]))
      && (saveDue.Some? ==> fragments != [])
    }

    constructor (userId: string, providerId: string, userName: string)
      ensures Valid()
      ensures this.userId == userId && this.providerId == providerId && this.userName == userName
      ensures transcriptBuffer == "" && saveDue.None? && submitted == [] && caption == Some("Powered by Deepgram")
    {
      this.userId := userId;
      this.providerId := providerId;
      this.userName := userName;
      transcriptBuffer := "";
      saveDue := None;
      caption := Some("Powered by Deepgram");
      submitted := [];
      fragments := [];
    }

    /** `onTranscript`: an empty or blank transcript is ignored; an interim
        one only shows as the caption; a final one is appended and
        reschedules the save. */
    method OnTranscript(transcript: string, isFinal: bool, now: int)
      requires Valid()
      modifies this
      ensures Valid() && submitted == old(submitted)
      ensures Trim(transcript) == "" ==>
                transcriptBuffer == old(transcriptBuffer) && saveDue == old(saveDue) && caption == old(caption)
      ensures Trim(transcript) != "" && !isFinal ==>
                transcriptBuffer == old(transcriptBuffer) && saveDue == old(saveDue) && caption == Some(Trim(transcript))
      ensures Trim(transcript) != "" && isFinal ==>
                && fragments == old(fragments) + [Trim(transcript)]
                && transcriptBuffer == (if old(transcriptBuffer) == "" then "" else old(transcriptBuffer) + " ") + Trim(transcript)
                && saveDue == Some(now + SaveDelay)
                && caption == Some(transcriptBuffer)
    {
      var thisCaption := Trim(transcript);
      if thisCaption != "" {
        if isFinal {
          assert IsFragment(thisCaption);
          Append(thisCaption, now);
        } else {
          ShowInterim(thisCaption);
        }
      }
    }

    /** The interim-transcript branch of `onTranscript`: only the caption
        changes. */
    method ShowInterim(c: string)
      requires Valid()
      modifies this
      ensures Valid() && submitted == old(submitted) && fragments == old(fragments)
      ensures transcriptBuffer == old(transcriptBuffer) && saveDue == old(saveDue) && caption == Some(c)
    {
      caption := Some(c);
    }

    /** The final-transcript branch of `onTranscript`, for the trimmed
        fragment `f`. */
    method Append(f: string, now: int)
      requires Valid() && IsFragment(f)
      modifies this
      ensures Valid() && submitted == old(submitted)
      ensures fragments == old(fragments) + [f]
      ensures transcriptBuffer == (if old(transcriptBuffer) == "" then "" else old(transcriptBuffer) + " ") + f
      ensures saveDue == Some(now + SaveDelay) && caption == Some(transcriptBuffer)
    {
      AppendFragment(fragments, transcriptBuffer, f);
      transcriptBuffer := transcriptBuffer + (if transcriptBuffer != "" then " " else "") + f;
      fragments := fragments + [f];
      saveDue := Some(now + SaveDelay);
      caption := Some(transcriptBuffer);
    }

    /** The clock reaches `now`. If the pending save is due, its callback
        runs: a non-empty buffer is submitted as one message and emptied,
        unless `processMessage` throws (`processThrew`), which leaves the
        buffer in place. */
    method Tick(now: int, processThrew: bool)
      requires Valid()
      modifies this
      ensures Valid() && caption == old(caption)
      ensures old(saveDue).None? || now < old(saveDue).value ==>
                transcriptBuffer == old(transcriptBuffer) && saveDue == old(saveDue) && submitted == old(submitted)
      ensures old(saveDue).Some? && now >= old(saveDue).value ==>
                && saveDue.None?
                && submitted == old(submitted) + [TranscriptMessage(old(transcriptBuffer), userId, providerId, userName, providerId)]
                && transcriptBuffer == (if processThrew then old(transcriptBuffer) else "")
    {
      if saveDue.None? || now < saveDue.value {
        return;
      }
      saveDue := None;
      JoinNonEmpty(fragments, " ");
      if transcriptBuffer != "" {
        submitted := submitted + [TranscriptMessage(transcriptBuffer, userId, providerId, userName, providerId)];
        if !processThrew {
          transcriptBuffer := "";
          fragments := [];
        }
      }
    }
  }

  /** Appending a final fragment keeps the buffer the space-joined
      fragments. */
  lemma AppendFragment(fragments: seq<string>, buffer: string, f: string)
    requires buffer == Join(fragments, " ") && IsFragment(f)
    requires forall i :: 0 <= i < |fragments| ==> IsFragment(fragments[i])
    ensures buffer + (if buffer != "" then " " else "") + f == Join(fragments + [f], " ")
    ensures forall i :: 0 <= i < |fragments + [f]| ==> IsFragment((fragments + [f])[i])
  {
    JoinSnoc(fragments, f);
  }

  /** Appending a fragment to the buffer adds one separating space unless
      the buffer was empty. */
  lemma JoinSnoc(parts: seq<string>, f: string)
    requires forall i :: 0 <= i < |parts| ==> parts[i] != ""
    ensures Join(parts + [f], " ") == (if Join(parts, " ") == "" then "" else Join(parts, " ") + " ") + f
  {
    assert (parts + [f])[..|parts|] == parts;
    if parts != [] {
      JoinNonEmpty(parts, " ");
    }
  }

  /** Joining non-empty parts is empty exactly when there are no parts. */
  lemma {:induction false} JoinNonEmpty(parts: seq<string>, sep: string)
    requires forall i :: 0 <= i < |parts| ==> parts[i] != ""
    ensures Join(parts, sep) == "" <==> parts == []
  {
    if |parts| > 1 {
      assert Join(parts, sep) == Join(parts[..|parts| - 1], sep) + sep + parts[|parts| - 1];
      assert |Join(parts, sep)| >= |parts[|parts| - 1]| > 0;
    }
  }

  /** Two final fragments received before the save fires, starting from an
      empty buffer, are submitted as one message, separated by a single
      space, and the buffer is empty again. */
  method TwoFragmentsOneMessage(d: Debouncer, a: string, b: string, t1: int, t2: int, t3: int)
    requires d.Valid() && d.transcriptBuffer == ""
    requires IsFragment(a) && IsFragment(b) && t3 >= t2 + SaveDelay
    modifies d
    ensures d.Valid()
    ensures d.submitted == old(d.submitted) + [TranscriptMessage(a + " " + b, d.userId, d.providerId, d.userName, d.providerId)]
    ensures d.transcriptBuffer == "" && d.saveDue.None?
  {
    d.Append(a, t1);
    d.Append(b, t2);
    d.Tick(t3, false);
  }
}
