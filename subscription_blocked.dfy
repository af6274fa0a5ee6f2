/** `onActivate` of src/screens/SubscriptionBlockedScreen.tsx: the activation
    code is trimmed and upper-cased, a blank one is refused locally, and a
    successful activation notifies the subscription-block module. */
module SubscriptionBlocked {
  import opened Wrappers
  import opened Text
  import opened SubscriptionBlock

  /** `code.trim().toUpperCase()`. */
  function NormalizeCode(code: string): (c: string)
    ensures Trimmed(c)
  {
    UpperKeepsTrimmed(Trim(code));
    ToUpper(Trim(code))
  }

  /** The normalised code is the trimmed text with every letter a-z replaced
      by its capital; nothing else changes. */
  lemma NormalizeShape(code: string)
    ensures |NormalizeCode(code)| == |Trim(code)|
    ensures forall i :: 0 <= i < |NormalizeCode(code)| ==> !('a' <= NormalizeCode(code)[i] <= 'z')
    ensures forall i :: 0 <= i < |Trim(code)| && !('a' <= Trim(code)[i] <= 'z') ==> NormalizeCode(code)[i] == Trim(code)[i]
  {
    ToUpperShape(Trim(code));
  }

  /** The code is blank exactly when the typed text is all white space. */
  lemma NormalizeBlank(code: string)
    ensures NormalizeCode(code) == "" <==> AllSpace(code)
  {
    TrimBlank(code);
  }

  /** The second trim in `activateSubscription` does nothing, and normalising
      twice is normalising once. */
  lemma NormalizeStable(code: string)
    ensures Trim(NormalizeCode(code)) == NormalizeCode(code)
    ensures NormalizeCode(NormalizeCode(code)) == NormalizeCode(code)
  {
    var c := NormalizeCode(code);
    TrimOfTrimmed(c);
    NormalizeShape(code);
    ToUpperShape(c);
    assert ToUpper(c) == c;
  }

  /** The body `activateSubscription` posts: `{ code: code.trim() }`. */
  function ActivationBody(code: string): string {
    Trim(code)
  }

  class ActivationForm {
    var code: string
    var activating: bool
    /** The codes posted to `/billing/activate`. */
    ghost var requests: seq<string>
    ghost var messages: nat

    constructor ()
      ensures code == "" && !activating && requests == [] && messages == 0
    {
      code := "";
      activating := false;
      requests := [];
      messages := 0;
    }

    /** `onActivate` up to its await. A blank code shows a message and sends
        nothing; otherwise the normalised code is sent. The model starts one
        activation at a time: the button is disabled while `activating`,
        but the keyboard's submit is not (see the README). */
    method BeginActivate() returns (sent: Option<string>)
      requires !activating
      modifies this`activating, this`requests, this`messages
      ensures NormalizeCode(code) == "" ==>
        sent == None && !activating && requests == old(requests) && messages == old(messages) + 1
      ensures NormalizeCode(code) != "" ==>
        sent == Some(NormalizeCode(code)) && activating
        && requests == old(requests) + [NormalizeCode(code)] && messages == old(messages)
    {
      var c := NormalizeCode(code);
      if c == "" {
        messages := messages + 1;
        return None;
      }
      activating := true;
      NormalizeStable(code);
      var body := ActivationBody(c);
      assert body == c;
      requests := requests + [body];
      sent := Some(c);
    }

    /** `onActivate` once the request settled: success notifies the restore
        exactly once, failure notifies nothing; `activating` ends false. */
    method EndActivate(activated: Result<string>, block: Notifier)
      requires activating
      modifies this`activating, this`messages, block
      ensures !activating && messages == old(messages) + 1
      ensures activated.Ok? ==>
        && !block.expired
        && block.calls == old(block.calls) + (match old(block.listenerRestored)
                                              case Some(l) => [RestoredCalled(l)]
                                              case None => [])
      ensures activated.Err? ==> block.expired == old(block.expired) && block.calls == old(block.calls)
      ensures block.listenerExpired == old(block.listenerExpired)
      ensures block.listenerRestored == old(block.listenerRestored)
    {
      messages := messages + 1;
      if activated.Ok? {
        block.NotifyRestored();
      }
      activating := false;
    }
  }
}
