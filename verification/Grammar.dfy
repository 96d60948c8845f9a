/** The words a session may say to Mirror: prefixes of
    `(Connected Data*)? Error? Disconnected`. */
module Grammar {

  datatype Kind = Connected | Data | Error | Disconnected

  /** How far through that expression a word has got. */
  datatype Phase = Fresh | Open | Failed | Over | Broken

  function Advance(p: Phase, k: Kind): (r: Phase) {
    match p
    case Fresh => (match k case Connected => Open case Data => Broken case Error => Failed case Disconnected => Over)
    case Open => (match k case Connected => Broken case Data => Open case Error => Failed case Disconnected => Over)
    case Failed => if k.Disconnected? then Over else Broken
    case Over => Broken
    case Broken => Broken
  }

  function PhaseOf(word: seq<Kind>): (r: Phase) {
    if word == [] then Fresh else Advance(PhaseOf(word[..|word| - 1]), word[|word| - 1])
  }

  lemma PhaseSnoc(word: seq<Kind>, k: Kind)
    ensures PhaseOf(word + [k]) == Advance(PhaseOf(word), k)
  {
    assert (word + [k])[..|word|] == word;
  }

  /** The expression, spelled out position by position. */
  ghost predicate SessionPrefix(w: seq<Kind>) {
    && (forall i :: 0 <= i < |w| && w[i] == Connected ==> i == 0)
    && (forall i :: 0 <= i < |w| && w[i] == Data ==> i > 0 && w[0] == Connected)
    && (forall i, j :: 0 <= i < j < |w| && w[i] == Error ==> w[j] == Disconnected)
    && (forall i :: 0 <= i < |w| && w[i] == Disconnected ==> i + 1 == |w|)
  }

  /** The automaton accepts exactly the prefixes of the expression, and its
      phase says what they end in. */
  lemma {:induction false} PhaseMeaning(w: seq<Kind>)
    ensures PhaseOf(w) != Broken <==> SessionPrefix(w)
    ensures PhaseOf(w) == Fresh <==> w == []
    ensures PhaseOf(w) == Open ==> w != [] && w[0] == Connected && w[|w| - 1] in {Connected, Data}
    ensures PhaseOf(w) == Failed ==> w != [] && w[|w| - 1] == Error
    ensures PhaseOf(w) == Over ==> w != [] && w[|w| - 1] == Disconnected
  {
    if w != [] {
      var init, last := w[..|w| - 1], w[|w| - 1];
      PhaseMeaning(init);
      if SessionPrefix(w) {
        assert SessionPrefix(init);
      }
    }
  }
}
