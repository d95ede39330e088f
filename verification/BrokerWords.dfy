/** Which words of the broker mean which local state, and who may enter which state. */
module BrokerWords {
  import opened OrderStates

  /** A letter of a lower-case word, in either case. */
  predicate SameLetter(c: char, letter: char) {
    c == letter || ('a' <= letter <= 'z' && c as int == letter as int - 32)
  }

  predicate IsWord(word: string) {
    word != "" && forall k :: 0 <= k < |word| ==> 'a' <= word[k] <= 'z' || word[k] == '_'
  }

  /** The word stands in the text from this place on, in any case, and only blanks stand around it. */
  ghost predicate StandsAt(text: string, word: string, i: nat) {
    && i + |word| <= |text|
    && (forall k :: 0 <= k < |word| ==> SameLetter(text[i + k], word[k]))
    && (forall k :: 0 <= k < i || i + |word| <= k < |text| ==> IsBlank(text[k]))
  }

  ghost predicate Spells(text: string, word: string) {
    exists i: nat :: StandsAt(text, word, i)
  }

  lemma WordsHaveNoBlanks(text: string, word: string, i: nat, k: nat)
    requires IsWord(word) && StandsAt(text, word, i) && i <= k < i + |word|
    ensures !IsBlank(text[k]) && LowerChar(text[k]) == word[k - i]
  {
    assert SameLetter(text[i + (k - i)], word[k - i]);
  }

  lemma WithoutFirst(text: string, word: string)
    requires IsWord(word) && |text| > 0 && IsBlank(text[0])
    ensures Spells(text, word) <==> Spells(text[1..], word)
  {
    if Spells(text, word) {
      var i: nat :| StandsAt(text, word, i);
      if i == 0 {
        WordsHaveNoBlanks(text, word, i, 0);
        assert false;
      } else {
        assert StandsAt(text[1..], word, i - 1);
      }
    }
    if Spells(text[1..], word) {
      var i: nat :| StandsAt(text[1..], word, i);
      assert StandsAt(text, word, i + 1) by {
        forall k | 0 <= k < |word|
          ensures SameLetter(text[i + 1 + k], word[k])
        {
          assert text[i + 1 + k] == text[1..][i + k];
        }
        forall k | 0 <= k < i + 1 || i + 1 + |word| <= k < |text|
          ensures IsBlank(text[k])
        {
          if k > 0 {
            assert text[k] == text[1..][k - 1];
          }
        }
      }
    }
  }

  lemma WithoutLast(text: string, word: string)
    requires IsWord(word) && |text| > 0 && IsBlank(text[|text| - 1])
    ensures Spells(text, word) <==> Spells(text[..|text| - 1], word)
  {
    var n := |text| - 1;
    if Spells(text, word) {
      var i: nat :| StandsAt(text, word, i);
      if i + |word| == |text| {
        WordsHaveNoBlanks(text, word, i, n);
        assert false;
      } else {
        assert StandsAt(text[..n], word, i);
      }
    }
    if Spells(text[..n], word) {
      var i: nat :| StandsAt(text[..n], word, i);
      assert StandsAt(text, word, i) by {
        forall k | 0 <= k < i || i + |word| <= k < |text|
          ensures IsBlank(text[k])
        {
          if k < n {
            assert text[k] == text[..n][k];
          }
        }
      }
    }
  }

  lemma BareWord(text: string, word: string)
    requires IsWord(word) && (|text| > 0 ==> !IsBlank(text[0]) && !IsBlank(text[|text| - 1]))
    ensures Lower(text) == word <==> Spells(text, word)
  {
    if Lower(text) == word {
      forall k | 0 <= k < |word|
        ensures SameLetter(text[0 + k], word[k])
      {
        assert Lower(text)[k] == word[k];
      }
      assert StandsAt(text, word, 0);
    }
    if Spells(text, word) {
      var i: nat :| StandsAt(text, word, i);
      assert i == 0 && |word| == |text|;
      forall k | 0 <= k < |word|
        ensures Lower(text)[k] == word[k]
      {
        WordsHaveNoBlanks(text, word, i, k);
      }
    }
  }

  /** Stripping and lower-casing recognizes a word whatever its case and outer blanks, and nothing else. */
  lemma {:induction false} NormalizedIsSpelled(text: string, word: string)
    requires IsWord(word)
    ensures Lower(Strip(text)) == word <==> Spells(text, word)
    decreases |text|
  {
    if |text| > 0 && IsBlank(text[0]) {
      WithoutFirst(text, word);
      NormalizedIsSpelled(text[1..], word);
    } else if |text| > 0 && IsBlank(text[|text| - 1]) {
      WithoutLast(text, word);
      NormalizedIsSpelled(text[..|text| - 1], word);
    } else {
      BareWord(text, word);
    }
  }

  ghost predicate SpellsOne(text: string, words: set<string>) {
    exists w :: w in words && Spells(text, w)
  }

  lemma OneOf(text: string, words: set<string>)
    requires forall w :: w in words ==> IsWord(w)
    ensures Lower(Strip(text)) in words <==> SpellsOne(text, words)
  {
    forall w | w in words
      ensures Lower(Strip(text)) == w <==> Spells(text, w)
    {
      NormalizedIsSpelled(text, w);
    }
  }

  // ---------------------------------------------------------------- the vocabulary

  /** The broker's words for a state. */
  function WordsFor(state: LocalOrderState): set<string> {
    match state
    case Filled => {"fill", "filled"}
    case Canceled => {"canceled", "cancelled"}
    case Rejected => {"rejected"}
    case Expired => {"expired"}
    case Replaced => {"replaced"}
    case Submitted => {"new", "submitted"}
    case Accepted => {"accepted"}
    case PartiallyFilled => {"partial_fill", "partially_filled"}
    case Pending => 
      {"pending", "pending_new", "pending_cancel", "pending_replace", "pending_review",
       "accepted_for_bidding", "held", "calculated", "stopped", "suspended", "done_for_day"}
    case _ => {}
  }

  lemma FilledWords(word: string)
    ensures StateForWord(word) == Filled <==> word in WordsFor(Filled)
    ensures forall w :: w in WordsFor(Filled) ==> IsWord(w)
  {
  }

  lemma CanceledWords(word: string)
    ensures StateForWord(word) == Canceled <==> word in WordsFor(Canceled)
    ensures forall w :: w in WordsFor(Canceled) ==> IsWord(w)
  {
  }

  lemma RejectedWords(word: string)
    ensures StateForWord(word) == Rejected <==> word in WordsFor(Rejected)
    ensures forall w :: w in WordsFor(Rejected) ==> IsWord(w)
  {
  }

  lemma ExpiredWords(word: string)
    ensures StateForWord(word) == Expired <==> word in WordsFor(Expired)
    ensures forall w :: w in WordsFor(Expired) ==> IsWord(w)
  {
  }

  lemma ReplacedWords(word: string)
    ensures StateForWord(word) == Replaced <==> word in WordsFor(Replaced)
    ensures forall w :: w in WordsFor(Replaced) ==> IsWord(w)
  {
  }

  lemma SubmittedWords(word: string)
    ensures StateForWord(word) == Submitted <==> word in WordsFor(Submitted)
    ensures forall w :: w in WordsFor(Submitted) ==> IsWord(w)
  {
  }

  lemma AcceptedWords(word: string)
    ensures StateForWord(word) == Accepted <==> word in WordsFor(Accepted)
    ensures forall w :: w in WordsFor(Accepted) ==> IsWord(w)
  {
  }

  lemma PartiallyFilledWords(word: string)
    ensures StateForWord(word) == PartiallyFilled <==> word in WordsFor(PartiallyFilled)
    ensures forall w :: w in WordsFor(PartiallyFilled) ==> IsWord(w)
  {
  }

  lemma PendingIsSpelled()
    ensures forall w :: w in WordsFor(Pending) ==> IsWord(w)
  {
  }

  lemma PendingWords(word: string)
    ensures StateForWord(word) == Pending <==> word in WordsFor(Pending)
    ensures forall w :: w in WordsFor(Pending) ==> IsWord(w)
  {
    PendingIsSpelled();
  }

  lemma WordByWord(state: LocalOrderState, word: string)
    requires WordsFor(state) != {}
    ensures StateForWord(word) == state <==> word in WordsFor(state)
    ensures forall w :: w in WordsFor(state) ==> IsWord(w)
  {
    match state
    case Filled => FilledWords(word);
    case Canceled => CanceledWords(word);
    case Rejected => RejectedWords(word);
    case Expired => ExpiredWords(word);
    case Replaced => ReplacedWords(word);
    case Submitted => SubmittedWords(word);
    case Accepted => AcceptedWords(word);
    case PartiallyFilled => PartiallyFilledWords(word);
    case Pending => PendingWords(word);
    case _ =>
  }

  /** A text stands for a state exactly when it spells one of that state's words, in any case and between any blanks. */
  lemma StateSpelled(text: string, state: LocalOrderState)
    requires WordsFor(state) != {}
    ensures StateForBrokerStatus(text) == state <==> SpellsOne(text, WordsFor(state))
  {
    WordByWord(state, Lower(Strip(text)));
    OneOf(text, WordsFor(state));
  }

  /** Exactly these words end an order. */
  lemma TerminalWords(text: string)
    ensures Terminal(StateForBrokerStatus(text)) <==>
              || SpellsOne(text, {"fill", "filled"}) || SpellsOne(text, {"canceled", "cancelled"})
              || SpellsOne(text, {"rejected"}) || SpellsOne(text, {"expired"}) || SpellsOne(text, {"replaced"})
  {
    StateSpelled(text, Filled);
    StateSpelled(text, Canceled);
    StateSpelled(text, Rejected);
    StateSpelled(text, Expired);
    StateSpelled(text, Replaced);
  }

  /** Any text outside the vocabulary asks for reconciliation. */
  lemma UnknownWords(text: string)
    ensures StateForBrokerStatus(text) == ReconciliationRequired <==>
              forall state :: WordsFor(state) != {} ==> !SpellsOne(text, WordsFor(state))
  {
    BrokerStatusIsExternal(text);
    forall state | WordsFor(state) != {}
      ensures StateForBrokerStatus(text) == state <==> SpellsOne(text, WordsFor(state))
    {
      StateSpelled(text, state);
    }
    assert "new" in WordsFor(Submitted) && "accepted" in WordsFor(Accepted) && "pending" in WordsFor(Pending);
    assert "fill" in WordsFor(Filled) && "partial_fill" in WordsFor(PartiallyFilled) && "canceled" in WordsFor(Canceled);
    assert "rejected" in WordsFor(Rejected) && "expired" in WordsFor(Expired) && "replaced" in WordsFor(Replaced);
  }

  // ---------------------------------------------------------------- the table read by columns

  /** The broker has been asked, and the order is not over. */
  predicate AtTheBroker(state: LocalOrderState) {
    state in {Submitted, Accepted, Pending, PartiallyFilled, CancelRequested, ReconciliationRequired}
  }

  /** Reserved, being submitted, or submitted with an unknown outcome. */
  predicate NotYetConfirmed(state: LocalOrderState) {
    state in {LocallyReserved, SubmissionStarted, SubmissionUnknown}
  }

  /** Who may enter which state: the transition table, column by column. */
  lemma WhoMayEnter(from: LocalOrderState)
    ensures !CanTransition(from, Planned)
    ensures CanTransition(from, LocallyReserved) <==> from == Planned
    ensures CanTransition(from, SubmissionStarted) <==> from == LocallyReserved
    ensures CanTransition(from, SubmissionUnknown) <==> from == SubmissionStarted
    ensures CanTransition(from, Submitted) <==> NotYetConfirmed(from) || from in {Submitted, ReconciliationRequired}
    ensures CanTransition(from, Accepted) <==>
              NotYetConfirmed(from) || from in {Submitted, Accepted, Pending, ReconciliationRequired}
    ensures CanTransition(from, Pending) <==> CanTransition(from, Accepted)
    ensures CanTransition(from, PartiallyFilled) <==> NotYetConfirmed(from) || AtTheBroker(from)
  {
  }

  /** And who may end an order, ask for its cancellation or send it to reconciliation. */
  lemma WhoMayLeave(from: LocalOrderState)
    ensures CanTransition(from, Filled) <==> NotYetConfirmed(from) || AtTheBroker(from) || from == Filled
    ensures CanTransition(from, CancelRequested) <==> AtTheBroker(from) && from != ReconciliationRequired
    ensures CanTransition(from, Canceled) <==> NotYetConfirmed(from) || AtTheBroker(from) || from == Canceled
    ensures CanTransition(from, Rejected) <==>
              NotYetConfirmed(from) || (AtTheBroker(from) && from != PartiallyFilled) || from == Rejected
    ensures CanTransition(from, Expired) <==>
              NotYetConfirmed(from) || (AtTheBroker(from) && from != CancelRequested) || from == Expired
    ensures CanTransition(from, Replaced) <==> (AtTheBroker(from) && from != CancelRequested) || from == Replaced
    ensures CanTransition(from, ReconciliationRequired) <==> NotYetConfirmed(from) || AtTheBroker(from)
  {
  }

  /** An order that is not over can always be sent to reconciliation once it is reserved, and only its end stops that. */
  lemma ReconciliationIsAlwaysOpen(from: LocalOrderState)
    ensures CanTransition(from, ReconciliationRequired) <==> from != Planned && !Terminal(from)
  {
  }
}
