/** The printer's private static helpers: newline escaping, message and detail
    rendering, and the Expected/Actual block of a comparison failure. */
module Formatting {
  import opened Wrappers
  import opened Php
  import opened Framework

  /** `escapeLF`: every "\n" becomes the token "<:LF:>"; no raw newline remains. */
  function EscapeLF(text: string): (r: string)
    ensures '\n' !in r
  {
    ReplaceCharRemoves(text, '\n', "<:LF:>");
    ReplaceChar(text, '\n', "<:LF:>")
  }

  /** Escaping a concatenation concatenates the escapes. */
  lemma EscapeLFConcat(a: string, b: string)
    ensures EscapeLF(a + b) == EscapeLF(a) + EscapeLF(b)
  {
    ReplaceCharConcat(a, b, '\n', "<:LF:>");
  }

  /** On one character, escaping gives "<:LF:>" for a newline and the character itself
      otherwise. Together with `EscapeLFConcat` this determines `EscapeLF` on every text. */
  lemma EscapeLFSingle(x: char)
    ensures EscapeLF([x]) == if x == '\n' then "<:LF:>" else [x]
  {
    ReplaceCharSingle(x, '\n', "<:LF:>");
  }

  /** On a newline-free string escaping is the identity. */
  lemma EscapeLFIdentity(text: string)
    requires '\n' !in text
    ensures EscapeLF(text) == text
  {
    ReplaceCharAbsent(text, '\n', "<:LF:>");
  }

  /** Escaping grows the text by five characters per newline. */
  lemma EscapeLFLength(text: string)
    ensures |EscapeLF(text)| == |text| + 5 * multiset(text)['\n']
  {
    ReplaceCharLength(text, '\n', "<:LF:>");
  }

  /** `getMessage`: a wrapped exception's class name, then " : " when both the class
      name and the message are non-empty, then the message. */
  function GetMessage(t: Exc): (r: string)
    ensures t.isWrapper && t.className != "" && t.message != "" ==> r == t.className + " : " + t.message
    ensures t.isWrapper && t.className != "" && t.message == "" ==> r == t.className
    ensures !(t.isWrapper && t.className != "") ==> r == t.message
  {
    var prefix := if t.isWrapper && t.className != "" then t.className else "";
    var separator := if t.isWrapper && prefix != "" && t.message != "" then " : " else "";
    prefix + separator + t.message
  }

  /** `getPrimitiveValueAsString`: null, booleans and other scalars have a display
      string; an array, object or resource (`CompoundValue`) has none. */
  function GetPrimitiveValueAsString(h: Host, v: PhpValue): (r: Option<string>)
    ensures r.None? <==> v.CompoundValue?
    ensures v.NullValue? ==> r == Some("null")
    ensures v.BoolValue? ==> r == Some(if v.b then "true" else "false")
    ensures v.ScalarValue? ==> r == Some(h.printR(v.scalar))
  {
    match v
    case NullValue => Some("null")
    case BoolValue(b) => Some(if b then "true" else "false")
    case ScalarValue(s) => Some(h.printR(s))
    case CompoundValue => None
  }

  /** A comparison operand has no display string exactly when the comparator's string
      form is null or PHP-empty ("" or "0") and the value is an array, object or
      resource (`CompoundValue`). */
  predicate Unrenderable(asString: Option<string>, value: PhpValue) {
    (asString.None? || IsEmptyPHP(asString.value)) && value.CompoundValue?
  }

  /** One side of `getAssertionDetails`: the comparator's string form, unless it is
      null or PHP-empty, in which case the primitive rendering of the value. */
  function RenderSide(h: Host, asString: Option<string>, value: PhpValue): (r: Option<string>)
    ensures r.None? <==> Unrenderable(asString, value)
    ensures asString.Some? && !IsEmptyPHP(asString.value) ==> r == asString
    ensures asString.None? || IsEmptyPHP(asString.value) ==> r == GetPrimitiveValueAsString(h, value)
  {
    if asString.None? || IsEmptyPHP(asString.value) then GetPrimitiveValueAsString(h, value)
    else asString
  }

  /** `getAssertionDetails`: the Expected/Actual block, or "" when there is no
      ComparisonFailure or either side cannot be rendered. */
  function GetAssertionDetails(h: Host, c: Option<Comparison>): (r: string)
    ensures r == "" <==> c.None? || Unrenderable(c.value.expectedAsString, c.value.expected)
                                 || Unrenderable(c.value.actualAsString, c.value.actual)
    ensures r != "" ==>
      r == "\nExpected: " + RenderSide(h, c.value.expectedAsString, c.value.expected).value
         + "\nActual  : " + RenderSide(h, c.value.actualAsString, c.value.actual).value
  {
    match c
    case None => ""
    case Some(cf) =>
      var expectedString := RenderSide(h, cf.expectedAsString, cf.expected);
      var actualString := RenderSide(h, cf.actualAsString, cf.actual);
      if actualString.Some? && expectedString.Some? then
        "\nExpected: " + expectedString.value + "\nActual  : " + actualString.value
      else ""
  }

  /** The final step of `getDetails`: a leading space, and a space after every newline. */
  function Indent(s: string): (r: string)
    ensures |r| > 0 && r[0] == ' '
    ensures EachFollowedBy(r, '\n', ' ')
  {
    ReplaceCharFollowed(s, '\n', ' ');
    var body := ReplaceChar(s, '\n', "\n ");
    var r := " " + body;
    assert forall i :: 0 < i < |r| ==> r[i] == body[i - 1];
    r
  }

  /** The section `getDetails` adds for one cause. */
  function CauseSection(h: Host, e: Exc): string {
    "\nCaused by\n" + h.exceptionToString(e) + "\n" + h.filteredStacktrace(e)
  }

  /** The sections for a sequence of causes, one per cause, in order. */
  function CauseSections(h: Host, cs: seq<Exc>): string
    decreases |cs|
  {
    if cs == [] then "" else CauseSection(h, cs[0]) + CauseSections(h, cs[1..])
  }

  /** The text `getDetails` builds before indenting: the throwable's filtered stack
      trace, then one section per element of its cause chain. */
  function DetailsText(h: Host, t: Exc): string {
    h.filteredStacktrace(t) + CauseSections(h, Causes(t.previous))
  }

  /** `getDetails`: walks the cause chain, then indents the whole text. */
  method GetDetails(h: Host, t: Exc) returns (r: string)
    ensures r == Indent(DetailsText(h, t))
    ensures |r| > 0 && r[0] == ' ' && EachFollowedBy(r, '\n', ' ')
  {
    var stackTrace := h.filteredStacktrace(t);
    var previous := t.previous;
    while previous.Some?
      invariant stackTrace + CauseSections(h, Causes(previous)) == DetailsText(h, t)
      decreases previous
    {
      var p := previous.value;
      assert Causes(previous)[1..] == Causes(p.previous);
      stackTrace := stackTrace + "\nCaused by\n" + h.exceptionToString(p) + "\n" + h.filteredStacktrace(p);
      previous := p.previous;
    }
    assert stackTrace == DetailsText(h, t);
    r := " " + ReplaceChar(stackTrace, '\n', "\n ");
  }
}
