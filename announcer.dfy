/**
 * The de-duplicating announcer shared by the UI Automation focus handler and the focus
 * polling thread: a text is spoken only when it is non-empty and differs from the last text
 * spoken, and it then becomes the last text.  A failure before or during speaking leaves the
 * last text as it was.
 */
module Announcer {
  /** A candidate is new when it is non-empty and differs from the last text spoken. */
  predicate IsNew(last: string, text: string)
  {
    text != "" && text != last
  }

  /**
   * One attempt to announce the focus: reading the element raised, or it yielded a text and
   * speaking that text either raised or completed.
   */
  datatype Attempt = Raised | Observed(text: string, speechFails: bool)

  /** The new last text and what is spoken, after one attempt. */
  function Announce(last: string, a: Attempt): (r: (string, seq<string>))
    ensures r.1 == [] || r.1 == [r.0]
    ensures r.1 != [] <==> a.Observed? && IsNew(last, a.text) && !a.speechFails
    ensures r.1 != [] ==> r.0 == a.text
    ensures r.1 == [] ==> r.0 == last
  {
    if a.Observed? && IsNew(last, a.text) && !a.speechFails then (a.text, [a.text]) else (last, [])
  }

  /** The last text and everything spoken after a sequence of attempts, starting from `last`. */
  function AnnounceAll(last: string, attempts: seq<Attempt>): (r: (string, seq<string>))
    ensures |r.1| <= |attempts|
    ensures attempts == [] ==> r == (last, [])
    decreases |attempts|
  {
    if attempts == [] then (last, [])
    else
      var first := Announce(last, attempts[0]);
      var rest := AnnounceAll(first.0, attempts[1..]);
      (rest.0, first.1 + rest.1)
  }

  /** No text is spoken twice in a row. */
  predicate NoRepeats(said: seq<string>)
  {
    forall i | 0 < i < |said| :: said[i - 1] != said[i]
  }

  /**
   * Over any sequence of attempts: nothing empty is spoken, the first text spoken differs from
   * the initial last text, and the last text ends as the final one spoken (or unchanged when
   * nothing was spoken).
   */
  lemma {:induction false} AnnounceAllEnds(last: string, attempts: seq<Attempt>)
    ensures forall i | 0 <= i < |AnnounceAll(last, attempts).1| :: AnnounceAll(last, attempts).1[i] != ""
    ensures AnnounceAll(last, attempts).1 == [] ==> AnnounceAll(last, attempts).0 == last
    ensures AnnounceAll(last, attempts).1 != [] ==>
      AnnounceAll(last, attempts).1[0] != last
      && AnnounceAll(last, attempts).0 == AnnounceAll(last, attempts).1[|AnnounceAll(last, attempts).1| - 1]
    decreases |attempts|
  {
    if attempts != [] {
      var first := Announce(last, attempts[0]);
      AnnounceAllEnds(first.0, attempts[1..]);
      var rest := AnnounceAll(first.0, attempts[1..]);
      var said := first.1 + rest.1;
      assert AnnounceAll(last, attempts) == (rest.0, said);
      if first.1 != [] {
        assert said == [first.0] + rest.1;
        forall i | 0 <= i < |said|
          ensures said[i] != ""
        {
          if i > 0 {
            assert said[i] == rest.1[i - 1];
          }
        }
        if rest.1 != [] {
          assert said[|said| - 1] == rest.1[|rest.1| - 1];
        }
      } else {
        assert said == rest.1;
      }
    }
  }

  /** Over any sequence of attempts, no text is spoken twice in a row. */
  lemma {:induction false} AnnounceAllNeverRepeats(last: string, attempts: seq<Attempt>)
    ensures NoRepeats(AnnounceAll(last, attempts).1)
    decreases |attempts|
  {
    if attempts != [] {
      var first := Announce(last, attempts[0]);
      AnnounceAllNeverRepeats(first.0, attempts[1..]);
      AnnounceAllEnds(first.0, attempts[1..]);
      var rest := AnnounceAll(first.0, attempts[1..]);
      var said := first.1 + rest.1;
      assert AnnounceAll(last, attempts).1 == said;
      if first.1 != [] {
        assert said == [first.0] + rest.1;
        forall i | 0 < i < |said|
          ensures said[i - 1] != said[i]
        {
          if i > 1 {
            assert said[i - 1] == rest.1[i - 2] && said[i] == rest.1[i - 1];
          } else {
            assert said[i] == rest.1[0];
          }
        }
      } else {
        assert said == rest.1;
      }
    }
  }

  /** Every text spoken is the text of an attempt whose speech succeeded. */
  lemma {:induction false} AnnounceAllSpeaksObservedTexts(last: string, attempts: seq<Attempt>)
    ensures forall t | t in AnnounceAll(last, attempts).1 :: Observed(t, false) in attempts
    decreases |attempts|
  {
    if attempts != [] {
      var first := Announce(last, attempts[0]);
      AnnounceAllSpeaksObservedTexts(first.0, attempts[1..]);
      var rest := AnnounceAll(first.0, attempts[1..]);
      forall t | t in first.1 + rest.1
        ensures Observed(t, false) in attempts
      {
        if t in rest.1 {
          assert Observed(t, false) in attempts[1..];
        }
      }
    }
  }

  /** The same observation twice in a row is spoken at most once. */
  lemma RepeatedObservationSpokenOnce(last: string, a: Attempt)
    ensures |AnnounceAll(last, [a, a]).1| <= 1
  {
    var first := Announce(last, a);
    assert [a, a][1..] == [a];
    assert [a][1..] == [];
    assert AnnounceAll(first.0, [a]).1 == Announce(first.0, a).1;
  }
}
