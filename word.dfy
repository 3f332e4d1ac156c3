/** The stored translation word `Word` and its conversions to and from the
    caller's word type (`WordRepresentable`). */
module Words {

  /** A caller's word value: the three properties the protocol requires. */
  datatype WordRepresentable = WordRepresentable(identifier: string, word: string, soundURL: string)

  /** The stored word; its primary key is `identifier`. */
  datatype Word = Word(identifier: string, word: string, soundURL: string)
  {
    /** `wordRepresentableFrom(model:)`: a fresh caller value (`blank`, what
        the caller type's `init()` gives) with all three fields overwritten. */
    function RepresentableFrom(blank: WordRepresentable): (r: WordRepresentable)
      ensures r.identifier == identifier && r.word == word && r.soundURL == soundURL
    {
      blank.(identifier := identifier, word := word, soundURL := soundURL)
    }
  }

  /** `init(word:)`: copies the three fields of a caller's word. */
  function WordFrom(w: WordRepresentable): (r: Word)
    ensures r.identifier == w.identifier && r.word == w.word && r.soundURL == w.soundURL
  {
    Word(w.identifier, w.word, w.soundURL)
  }

  /** Caller value to stored word and back gives the caller value again, and
      does not depend on the blank value used. */
  lemma RepresentableRoundTrip(w: WordRepresentable, blank: WordRepresentable)
    ensures WordFrom(w).RepresentableFrom(blank) == w
  {
  }

  /** Stored word to caller value and back gives the stored word again. */
  lemma WordRoundTrip(w: Word, blank: WordRepresentable)
    ensures WordFrom(w.RepresentableFrom(blank)) == w
  {
  }

  /** `init(word:)` over a list, element by element, in order. */
  function WordsFrom(ws: seq<WordRepresentable>): (r: seq<Word>)
    ensures |r| == |ws|
    ensures forall i :: 0 <= i < |ws| ==> r[i] == WordFrom(ws[i])
  {
    seq(|ws|, i requires 0 <= i < |ws| => WordFrom(ws[i]))
  }

  /** `wordRepresentableFrom(model:)` over a list, element by element, in order. */
  function RepresentablesFrom(ws: seq<Word>, blank: WordRepresentable): (r: seq<WordRepresentable>)
    ensures |r| == |ws|
    ensures forall i :: 0 <= i < |ws| ==> r[i] == ws[i].RepresentableFrom(blank)
  {
    seq(|ws|, i requires 0 <= i < |ws| => ws[i].RepresentableFrom(blank))
  }

  /** Mapping a list of caller words to stored words and back returns the
      same list. */
  lemma {:induction false} RepresentablesRoundTrip(ws: seq<WordRepresentable>, blank: WordRepresentable)
    ensures RepresentablesFrom(WordsFrom(ws), blank) == ws
  {
    var r := RepresentablesFrom(WordsFrom(ws), blank);
    forall i | 0 <= i < |ws| ensures r[i] == ws[i] {
      RepresentableRoundTrip(ws[i], blank);
    }
  }
}
