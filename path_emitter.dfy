/** The universe path emitter: turns a universe outline into one closed path command
    string. JavaScript's number-to-string conversion is not modelled; the caller passes it
    in as `num`. */
module PathEmitter {
  import opened Interfaces
  import opened Geometry
  import opened Layout

  /** A flag as the template prints it: `1` for true, `0` for false. */
  function FlagDigit(b: bool): string
  {
    if b then "1" else "0"
  }

  /** One arc as the command `A rx ry rotation large-arc sweep x2 y2`. */
  function ArcCommand(a: Arc, num: real -> string): string
  {
    "A " + num(a.rx) + " " + num(a.ry) + " " + num(a.rotation) + " "
      + FlagDigit(a.largeArcFlag) + " " + FlagDigit(a.sweepFlag) + " " + num(a.x2) + " " + num(a.y2)
  }

  /** The commands of a chain of arcs, one per arc, in chain order. */
  function ArcCommands(arcs: seq<Arc>, num: real -> string): seq<string>
  {
    seq(|arcs|, j requires 0 <= j < |arcs| => ArcCommand(arcs[j], num))
  }

  /** `parts.join(' ')`. */
  function Join(parts: seq<string>): string
  {
    if |parts| == 0 then ""
    else if |parts| == 1 then parts[0]
    else Join(parts[..|parts| - 1]) + " " + parts[|parts| - 1]
  }

  /** The part of the path template before the arc chain: a move-to a corner and two
      line-tos to the chain's start point `(x1, y1)`, from the top-left corner when the
      chain starts in the upper half and from the bottom-right corner otherwise. */
  function PathHead(upper: bool, w: string, h: string, x1: string, y1: string): string
  {
    if upper then "M 0 0 L " + x1 + " 0 L " + x1 + " " + y1 + " "
    else "M " + w + " " + h + " L " + x1 + " " + h + " L " + x1 + " " + y1 + " "
  }

  /** The part of the path template after the arc chain: back to the edge and around the
      remaining corners of the rectangle, then close-path. */
  function PathTail(upper: bool, w: string, h: string, x1: string): string
  {
    if upper then " L " + x1 + " 0 L " + w + " 0 L " + w + " " + h + " L 0 " + h + " Z"
    else " L " + x1 + " " + h + " L 0 " + h + " L 0 0 L " + w + " 0 Z"
  }

  /** `generateUniverseSetPath(u)`: the path template with the joined arc commands spliced
      in, the template chosen by whether the chain starts above half the height. */
  function GenerateUniverseSetPath(u: UniverseSet, num: real -> string): string
  {
    var upper := u.y1 < u.height / 2.0;
    var w, h, x1, y1 := num(u.width), num(u.height), num(u.x1), num(u.y1);
    PathHead(upper, w, h, x1, y1) + Join(ArcCommands(u.arcs, num)) + PathTail(upper, w, h, x1)
  }

  /** Every universe path begins with a move-to and ends with a close-path. When the chain
      starts above half the height the path begins `M 0 0 L x1 0 L x1 y1 ` (from the
      top-left corner), otherwise `M w h L x1 h L x1 y1 ` (from the bottom-right corner). */
  lemma PathShape(u: UniverseSet, num: real -> string)
    ensures var p := GenerateUniverseSetPath(u, num);
      && |p| >= 2 && p[..2] == "M " && p[|p| - 1] == 'Z'
      && (u.y1 < u.height / 2.0 ==>
            "M 0 0 L " + num(u.x1) + " 0 L " + num(u.x1) + " " + num(u.y1) + " " <= p)
      && (!(u.y1 < u.height / 2.0) ==>
            "M " + num(u.width) + " " + num(u.height) + " L " + num(u.x1) + " " + num(u.height)
              + " L " + num(u.x1) + " " + num(u.y1) + " " <= p)
  {
  }

  /** The number of arc commands `s` can hold: its count of the letter `A`. */
  function ArcLetters(s: string): nat
  {
    multiset(s)['A']
  }

  /** `num` never prints the letter `A`, as JavaScript's number-to-string conversion never
      does: it prints digits, a sign, a point, an exponent `e`, `Infinity` or `NaN`. */
  ghost predicate PrintsNoArcLetter(num: real -> string)
  {
    forall x :: ArcLetters(num(x)) == 0
  }

  /** An arc command holds exactly one `A`, its leading command letter. */
  lemma ArcCommandLetters(a: Arc, num: real -> string)
    requires PrintsNoArcLetter(num)
    ensures ArcLetters(ArcCommand(a, num)) == 1
  {
    assert ArcLetters(num(a.rx)) == 0 && ArcLetters(num(a.ry)) == 0 && ArcLetters(num(a.rotation)) == 0;
    assert ArcLetters(num(a.x2)) == 0 && ArcLetters(num(a.y2)) == 0;
  }

  /** Joining strings that each hold one `A` gives a string with one `A` per part: the
      separator adds none. */
  lemma {:induction false} JoinLetters(parts: seq<string>)
    requires forall i :: 0 <= i < |parts| ==> ArcLetters(parts[i]) == 1
    ensures ArcLetters(Join(parts)) == |parts|
  {
    var n := |parts|;
    if n > 1 {
      JoinLetters(parts[..n - 1]);
      assert ArcLetters(parts[n - 1]) == 1;
    } else if n == 1 {
      assert ArcLetters(parts[0]) == 1;
    }
  }

  /** The joined arc commands of a chain hold one `A` per arc. */
  lemma JoinedArcLetters(arcs: seq<Arc>, num: real -> string)
    requires PrintsNoArcLetter(num)
    ensures ArcLetters(Join(ArcCommands(arcs, num))) == |arcs|
  {
    var cmds := ArcCommands(arcs, num);
    forall i | 0 <= i < |cmds|
      ensures ArcLetters(cmds[i]) == 1
    {
      ArcCommandLetters(arcs[i], num);
    }
    JoinLetters(cmds);
  }

  // With numbers printed without an `A`, no part of either template around the arc chain
  // holds an `A`: the templates consist of move-to and line-to commands, coordinates and
  // the close-path. The next four lemmas take the four parts one at a time.

  /** The head of the template for a chain starting in the upper half holds no `A`. */
  lemma UpperHeadLetters(x1: string, y1: string)
    requires ArcLetters(x1) == 0 && ArcLetters(y1) == 0
    ensures ArcLetters("M 0 0 L " + x1 + " 0 L " + x1 + " " + y1 + " ") == 0
  {
  }

  /** The head of the template for a chain starting in the lower half holds no `A`. */
  lemma LowerHeadLetters(w: string, h: string, x1: string, y1: string)
    requires ArcLetters(w) == 0 && ArcLetters(h) == 0 && ArcLetters(x1) == 0 && ArcLetters(y1) == 0
    ensures ArcLetters("M " + w + " " + h + " L " + x1 + " " + h + " L " + x1 + " " + y1 + " ") == 0
  {
  }

  /** The tail of the template for a chain starting in the upper half holds no `A`. */
  lemma UpperTailLetters(w: string, h: string, x1: string)
    requires ArcLetters(w) == 0 && ArcLetters(h) == 0 && ArcLetters(x1) == 0
    ensures ArcLetters(" L " + x1 + " 0 L " + w + " 0 L " + w + " " + h + " L 0 " + h + " Z") == 0
  {
  }

  /** The tail of the template for a chain starting in the lower half holds no `A`. */
  lemma LowerTailLetters(w: string, h: string, x1: string)
    requires ArcLetters(w) == 0 && ArcLetters(h) == 0 && ArcLetters(x1) == 0
    ensures ArcLetters(" L " + x1 + " " + h + " L 0 " + h + " L 0 0 L " + w + " 0 Z") == 0
  {
  }

  /** Whichever template the outline selects, its head and tail hold no `A`. */
  lemma TemplateLetters(u: UniverseSet, num: real -> string)
    requires PrintsNoArcLetter(num)
    ensures var upper := u.y1 < u.height / 2.0;
      && ArcLetters(PathHead(upper, num(u.width), num(u.height), num(u.x1), num(u.y1))) == 0
      && ArcLetters(PathTail(upper, num(u.width), num(u.height), num(u.x1))) == 0
  {
    var w, h, x1, y1 := num(u.width), num(u.height), num(u.x1), num(u.y1);
    assert ArcLetters(w) == 0 && ArcLetters(h) == 0 && ArcLetters(x1) == 0 && ArcLetters(y1) == 0;
    if u.y1 < u.height / 2.0 {
      UpperHeadLetters(x1, y1);
      UpperTailLetters(w, h, x1);
    } else {
      LowerHeadLetters(w, h, x1, y1);
      LowerTailLetters(w, h, x1);
    }
  }

  /** Splicing strings adds up their `A`s. */
  lemma SpliceLetters(head: string, arcs: string, tail: string)
    ensures ArcLetters(head + arcs + tail) == ArcLetters(head) + ArcLetters(arcs) + ArcLetters(tail)
  {
    assert multiset(head + arcs + tail) == multiset(head) + multiset(arcs) + multiset(tail);
  }

  /** The path is the chosen head, the joined arc commands and the chosen tail, in order. */
  lemma PathIsSplice(u: UniverseSet, num: real -> string)
    ensures var upper := u.y1 < u.height / 2.0;
      GenerateUniverseSetPath(u, num)
        == PathHead(upper, num(u.width), num(u.height), num(u.x1), num(u.y1))
          + Join(ArcCommands(u.arcs, num))
          + PathTail(upper, num(u.width), num(u.height), num(u.x1))
  {
  }

  /** The chosen head, the joined arc commands and the chosen tail together hold one `A`
      per arc. */
  lemma SplicedArcLetters(u: UniverseSet, num: real -> string)
    requires PrintsNoArcLetter(num)
    ensures var upper := u.y1 < u.height / 2.0;
      ArcLetters(PathHead(upper, num(u.width), num(u.height), num(u.x1), num(u.y1))
          + Join(ArcCommands(u.arcs, num))
          + PathTail(upper, num(u.width), num(u.height), num(u.x1))) == |u.arcs|
  {
    var upper := u.y1 < u.height / 2.0;
    TemplateLetters(u, num);
    JoinedArcLetters(u.arcs, num);
    SpliceLetters(PathHead(upper, num(u.width), num(u.height), num(u.x1), num(u.y1)),
      Join(ArcCommands(u.arcs, num)), PathTail(upper, num(u.width), num(u.height), num(u.x1)));
  }

  /** The path holds exactly one arc command per arc of the outline: the chain is spliced
      in once, and nothing else in the path is an arc command. */
  lemma PathArcLetters(u: UniverseSet, num: real -> string)
    requires PrintsNoArcLetter(num)
    ensures ArcLetters(GenerateUniverseSetPath(u, num)) == |u.arcs|
  {
    SplicedArcLetters(u, num);
    PathIsSplice(u, num);
  }

  /** The universe path of a layout for `sets` sets holds no arc command for zero sets,
      two for one or two sets and three otherwise. */
  lemma LayoutPathArcCount(m: MathLib, sets: int, size: ChartArea, radiOverlap: real, num: real -> string)
    requires LayoutDefined(m, sets, radiOverlap)
    requires PrintsNoArcLetter(num)
    ensures ArcLetters(GenerateUniverseSetPath(VennDiagramLayout(m, sets, size, radiOverlap).universe, num))
      == UniverseArcCount(sets)
  {
    PathArcLetters(VennDiagramLayout(m, sets, size, radiOverlap).universe, num);
  }
}
