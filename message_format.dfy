/**
 * The part of `java.text.MessageFormat.format` the error formatter uses: a
 * pattern is literal text interleaved with numbered placeholders `{k}`, and
 * formatting substitutes the k-th argument for each placeholder, verbatim.
 * A doubled quote `''` in a Java pattern reads as one literal quote; here
 * the text pieces hold the quote already read.
 */
module MessageFormat {

  datatype Piece = Text(text: string) | Arg(index: nat)

  type Pattern = seq<Piece>

  /** Every placeholder of `p` names one of `n` arguments. */
  predicate ArgsInRange(p: Pattern, n: nat) {
    forall i :: 0 <= i < |p| && p[i].Arg? ==> p[i].index < n
  }

  function Render(piece: Piece, args: seq<string>): string
    requires piece.Arg? ==> piece.index < |args|
  {
    match piece
    case Text(t) => t
    case Arg(k) => args[k]
  }

  /** The pieces of `p` rendered one after the other, left to right. */
  function Format(p: Pattern, args: seq<string>): string
    requires ArgsInRange(p, |args|)
  {
    if p == [] then "" else Format(p[..|p| - 1], args) + Render(p[|p| - 1], args)
  }

  /** Formatting a non-empty pattern renders all but its last piece, then the last piece. */
  lemma FormatLast(p: Pattern, args: seq<string>)
    requires |p| > 0 && ArgsInRange(p, |args|)
    ensures ArgsInRange(p[..|p| - 1], |args|)
    ensures Format(p, args) == Format(p[..|p| - 1], args) + Render(p[|p| - 1], args)
  {
  }

  /** A one-piece pattern renders as that piece. */
  lemma FormatOne(p: Pattern, args: seq<string>)
    requires |p| == 1 && ArgsInRange(p, |args|)
    ensures Format(p, args) == Render(p[0], args)
  {
    assert p[..0] == [];
    assert Format(p[..0], args) == "";
  }

  /** A three-piece pattern renders as its three pieces in order. */
  lemma FormatThree(p: Pattern, args: seq<string>)
    requires |p| == 3 && ArgsInRange(p, |args|)
    ensures Format(p, args) == Render(p[0], args) + Render(p[1], args) + Render(p[2], args)
  {
    var two := p[..2];
    FormatLast(p, args);
    assert two[..1] == p[..1] && two[1] == p[1];
    FormatLast(two, args);
    FormatOne(p[..1], args);
  }

  /** A five-piece pattern renders as its five pieces in order. */
  lemma FormatFive(p: Pattern, args: seq<string>)
    requires |p| == 5 && ArgsInRange(p, |args|)
    ensures Format(p, args)
         == Render(p[0], args) + Render(p[1], args) + Render(p[2], args) + Render(p[3], args) + Render(p[4], args)
  {
    var four := p[..4];
    FormatLast(p, args);
    assert four[..3] == p[..3] && four[3] == p[3];
    FormatLast(four, args);
    FormatThree(p[..3], args);
  }
}
