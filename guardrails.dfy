/** The output guardrails of jc/guardrails.py: a guardrail rewrites a text
    when its check holds, and a manager threads a text through its
    guardrails in order. */
module Guardrails {
  import opened Text

  /** Guardrail: a name, a check and the action taken when the check holds. */
  datatype Guardrail = Guardrail(name: string, check: string -> bool, action: string -> string) {
    /** `Guardrail.apply`. */
    function Apply(text: string): string {
      if check(text) then action(text) else text
    }
  }

  /** The text after every guardrail of `gs`, first to last. */
  function ApplyAll(gs: seq<Guardrail>, text: string): string {
    if gs == [] then text else ApplyAll(gs[1..], gs[0].Apply(text))
  }

  /** Applying `a + b` is applying `a`, then `b`. */
  lemma {:induction false} ApplyAllAppend(a: seq<Guardrail>, b: seq<Guardrail>, text: string)
    ensures ApplyAll(a + b, text) == ApplyAll(b, ApplyAll(a, text))
  {
    if a == [] {
      assert a + b == b;
    } else {
      assert (a + b)[1..] == a[1..] + b;
      ApplyAllAppend(a[1..], b, a[0].Apply(text));
    }
  }

  /** A guardrail list whose checks never hold leaves every text unchanged. */
  lemma {:induction false} ApplyAllInactive(gs: seq<Guardrail>, text: string)
    requires forall i :: 0 <= i < |gs| ==> !gs[i].check(text)
    ensures ApplyAll(gs, text) == text
  {
    if gs != [] {
      ApplyAllInactive(gs[1..], text);
    }
  }

  /** GuardrailsManager. */
  class GuardrailsManager {
    var guardrails: seq<Guardrail>

    /** `GuardrailsManager(guardrails)`; None and an empty list both give no guardrails. */
    constructor(initial: seq<Guardrail>)
      ensures guardrails == initial
    {
      guardrails := initial;
    }

    /** `add_guardrail`: appended last, the others kept in place. */
    method AddGuardrail(g: Guardrail)
      modifies this
      ensures guardrails == old(guardrails) + [g]
    {
      guardrails := guardrails + [g];
    }

    /** `apply`: the loop reassigning `text`. */
    method Apply(text: string) returns (r: string)
      ensures r == ApplyAll(guardrails, text)
    {
      var gs := guardrails;
      r := text;
      var i := 0;
      while i < |gs|
        invariant 0 <= i <= |gs|
        invariant ApplyAll(gs, text) == ApplyAll(gs[i..], r)
      {
        assert gs[i..][1..] == gs[i + 1..];
        r := gs[i].Apply(r);
        i := i + 1;
      }
    }
  }

  /** After `add_guardrail(g)`, applying the manager is applying it as it was
      and then `g`. */
  lemma AddedGuardrailRunsLast(gs: seq<Guardrail>, g: Guardrail, text: string)
    ensures ApplyAll(gs + [g], text) == g.Apply(ApplyAll(gs, text))
  {
    ApplyAllAppend(gs, [g], text);
  }

  // ---------------------------------------------------------------------------
  // The example guardrails
  // ---------------------------------------------------------------------------

  const BannedWords: seq<string> := ["password", "credit card", "ssn"]

  /** `block_banned_words`. */
  predicate BlockBannedWords(text: string) {
    exists i :: 0 <= i < |BannedWords| && Contains(Lower(text), BannedWords[i])
  }

  const BlockedMessage := "[Output blocked due to policy violation.]"

  /** `block_action`. */
  function BlockAction(text: string): string {
    BlockedMessage
  }

  const MaxLength := 500
  const TruncationMark := "... [truncated]"

  /** `too_long`. */
  predicate TooLong(text: string) {
    |text| > MaxLength
  }

  /** `rephrase_action`: the first 500 characters and a mark. */
  function RephraseAction(text: string): (r: string)
    ensures var kept := if |text| < MaxLength then |text| else MaxLength;
            |r| == kept + |TruncationMark| && r[..kept] == text[..kept] && r[kept..] == TruncationMark
  {
    Prefix(text, MaxLength) + TruncationMark
  }

  const BlockBannedWordsGuard := Guardrail("BlockBannedWords", BlockBannedWords, BlockAction)
  const TruncateLongGuard := Guardrail("TruncateLong", TooLong, RephraseAction)

  /** A banned word, in any ASCII case, makes the block guard replace the
      whole text; otherwise the text is untouched. */
  lemma BlockGuardEffect(text: string)
    ensures BlockBannedWordsGuard.Apply(text) ==
              if Contains(Lower(text), "password") || Contains(Lower(text), "credit card") || Contains(Lower(text), "ssn")
              then BlockedMessage else text
  {
    if Contains(Lower(text), "password") {
      assert Contains(Lower(text), BannedWords[0]);
    } else if Contains(Lower(text), "credit card") {
      assert Contains(Lower(text), BannedWords[1]);
    } else if Contains(Lower(text), "ssn") {
      assert Contains(Lower(text), BannedWords[2]);
    }
  }

  /** The truncation guard keeps texts of at most 500 characters and cuts
      longer ones to their first 500 characters plus the mark; applying it
      to its own output changes nothing. */
  lemma TruncateGuardIdempotent(text: string)
    ensures var r := TruncateLongGuard.Apply(text);
            (|text| <= MaxLength ==> r == text) &&
            (|text| > MaxLength ==> r == text[..MaxLength] + TruncationMark && |r| == MaxLength + |TruncationMark|) &&
            TruncateLongGuard.Apply(r) == r
  {
    var r := TruncateLongGuard.Apply(text);
    if |text| > MaxLength {
      assert r[..MaxLength] == text[..MaxLength];
    }
  }
}
