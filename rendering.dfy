/**
 * The text the generator writes for types: the argument-list separator and
 * `convertTypeArgumentToString`, which spells out the type arguments of a type
 * (recursively) between diamonds.
 */
module Rendering {
  import opened KspModel
  import opened Extensions
  import opened Text

  const DIAMOND_OPERATOR_OPEN := "<"
  const DIAMOND_OPERATOR_CLOSE := ">"

  /** `getArgumentDeclarationLineEnding`: a comma when another item follows, followed by a
      space when asked for; nothing after the last item. */
  function GetArgumentDeclarationLineEnding(hasNextLine: bool, addSpace: bool): (ending: string)
    ensures ending == "" <==> !hasNextLine
    ensures hasNextLine ==> ending[0] == ',' && (|ending| == 2 <==> addSpace) && |ending| <= 2
    ensures |ending| == 2 ==> ending[1] == ' '
  {
    if hasNextLine then "," + (if addSpace then " " else "") else ""
  }

  /**
   * `convertTypeArgumentToString(typeText, ArrayDeque(owner.arguments))`: the deque is the
   * suffix `owner.arguments[next..]`, and `shouldAddOpenOperator` is `open`. Nested types are
   * written by name with their own arguments, without nullability marks. An argument whose
   * type is absent (a star projection, or a reference that does not resolve) ends the text
   * where it is, even after a separator.
   */
  function ConvertTypeArgumentToString(typeText: string, owner: KType, next: nat, open: bool): string
    requires next <= |owner.arguments|
    decreases owner, 0, |owner.arguments| - next
  {
    if next == |owner.arguments| || !owner.arguments[next].Of? then typeText
    else
      var resolvedTypeParameter := owner.arguments[next].ty;
      var appendedTypeText := typeText + (if open then DIAMOND_OPERATOR_OPEN else "")
                              + GetName(resolvedTypeParameter.declaration)
                              + ConvertTypeArgumentToString("", resolvedTypeParameter, 0, true);
      var hasNext := next + 1 < |owner.arguments|;
      var typeParamLineEnding := GetArgumentDeclarationLineEnding(hasNext, true);
      if hasNext then ConvertTypeArgumentToString(appendedTypeText + typeParamLineEnding, owner, next + 1, false)
      else appendedTypeText + DIAMOND_OPERATOR_CLOSE + typeParamLineEnding
  }

  // ---------------------------------------------------------------------------------------
  // A reference rendering for types whose arguments all resolve

  /** No star projection and no unresolved reference anywhere among the type's arguments. */
  predicate FullyResolved(t: KType)
    decreases t
  {
    forall i :: 0 <= i < |t.arguments| ==> t.arguments[i].Of? && FullyResolved(t.arguments[i].ty)
  }

  /** A type as Kotlin source without nullability marks: its simple name, then its rendered
      arguments joined by ", " between diamonds when it has any. */
  function RenderType(t: KType): string
    requires FullyResolved(t)
    decreases t, 2
  {
    GetName(t.declaration) + RenderArguments(t)
  }

  function RenderArguments(t: KType): string
    requires FullyResolved(t)
    decreases t, 1
  {
    if |t.arguments| == 0 then ""
    else DIAMOND_OPERATOR_OPEN + Join(RenderedArguments(t, 0), ", ") + DIAMOND_OPERATOR_CLOSE
  }

  /** The renderings of the arguments from index `i` on. */
  function RenderedArguments(t: KType, i: nat): (r: seq<string>)
    requires FullyResolved(t) && i <= |t.arguments|
    ensures |r| == |t.arguments| - i
    decreases t, 0, |t.arguments| - i
  {
    if i == |t.arguments| then []
    else [RenderType(t.arguments[i].ty)] + RenderedArguments(t, i + 1)
  }

  lemma JoinCons(x: string, rest: seq<string>, sep: string)
    ensures Join([x] + rest, sep) == x + (if |rest| == 0 then "" else sep + Join(rest, sep))
  {
    assert ([x] + rest)[1..] == rest;
  }

  /** On a fully resolved type the generator's text is the reference rendering: the
      arguments between diamonds, separated by ", ", appended to the text so far. */
  lemma {:induction false} ConvertRendersResolvedArguments(typeText: string, t: KType)
    requires FullyResolved(t)
    ensures ConvertTypeArgumentToString(typeText, t, 0, true) == typeText + RenderArguments(t)
    decreases t, 1
  {
    if |t.arguments| > 0 {
      ConvertRendersRemainingArguments(typeText, t, 0, true);
    }
  }

  lemma {:induction false} ConvertRendersRemainingArguments(typeText: string, t: KType, next: nat, open: bool)
    requires FullyResolved(t) && next < |t.arguments|
    ensures ConvertTypeArgumentToString(typeText, t, next, open)
            == typeText + (if open then DIAMOND_OPERATOR_OPEN else "")
               + Join(RenderedArguments(t, next), ", ") + DIAMOND_OPERATOR_CLOSE
    decreases t, 0, |t.arguments| - next
  {
    var u := t.arguments[next].ty;
    assert t.arguments[next].Of? && FullyResolved(u);
    ConvertRendersResolvedArguments("", u);
    var prefix := typeText + (if open then DIAMOND_OPERATOR_OPEN else "");
    var head := prefix + RenderType(u);
    ConvertStep(typeText, t, next, open, RenderArguments(u));
    var rest := RenderedArguments(t, next + 1);
    assert RenderedArguments(t, next) == [RenderType(u)] + rest;
    JoinCons(RenderType(u), rest, ", ");
    var joined := Join(RenderedArguments(t, next), ", ");
    if next + 1 < |t.arguments| {
      ConvertRendersRemainingArguments(head + ", ", t, next + 1, false);
      var tail := Join(rest, ", ");
      assert joined == RenderType(u) + (", " + tail);
      Associate(prefix, RenderType(u), ", ", tail, DIAMOND_OPERATOR_CLOSE);
    } else {
      assert joined == RenderType(u);
    }
  }

  lemma Associate(a: string, b: string, c: string, d: string, e: string)
    ensures a + b + c + d + e == a + (b + (c + d)) + e
  {
  }

  /** One step of the generator's renderer on a resolved argument, with the text of the
      argument's own arguments given as `inner`. */
  lemma ConvertStep(typeText: string, t: KType, next: nat, open: bool, inner: string)
    requires next < |t.arguments| && t.arguments[next].Of?
    requires ConvertTypeArgumentToString("", t.arguments[next].ty, 0, true) == inner
    ensures var head := typeText + (if open then DIAMOND_OPERATOR_OPEN else "")
                        + (GetName(t.arguments[next].ty.declaration) + inner);
            ConvertTypeArgumentToString(typeText, t, next, open)
            == if next + 1 < |t.arguments| then ConvertTypeArgumentToString(head + ", ", t, next + 1, false)
               else head + DIAMOND_OPERATOR_CLOSE
  {
    var u := t.arguments[next].ty;
    var o := if open then DIAMOND_OPERATOR_OPEN else "";
    assert typeText + o + GetName(u.declaration) + inner == typeText + o + (GetName(u.declaration) + inner);
    assert GetArgumentDeclarationLineEnding(true, true) == ", ";
    assert GetArgumentDeclarationLineEnding(false, true) == "";
  }

  /** A type with its nested types written as the reference rendering says. */
  lemma ConvertRendersResolvedType(t: KType)
    requires FullyResolved(t)
    ensures ConvertTypeArgumentToString(GetName(t.declaration), t, 0, true) == RenderType(t)
  {
    ConvertRendersResolvedArguments(GetName(t.declaration), t);
  }

  /** The text only ever grows: what the caller passed in is kept as a prefix. */
  lemma {:induction false} ConvertExtendsTypeText(typeText: string, t: KType, next: nat, open: bool)
    requires next <= |t.arguments|
    ensures typeText <= ConvertTypeArgumentToString(typeText, t, next, open)
    decreases |t.arguments| - next
  {
    if next < |t.arguments| && t.arguments[next].Of? && next + 1 < |t.arguments| {
      var u := t.arguments[next].ty;
      var appended := typeText + (if open then DIAMOND_OPERATOR_OPEN else "") + GetName(u.declaration)
                      + ConvertTypeArgumentToString("", u, 0, true);
      assert GetArgumentDeclarationLineEnding(true, true) == ", ";
      ConvertExtendsTypeText(appended + ", ", t, next + 1, false);
      assert (appended + ", ")[..|typeText|] == typeText;
    }
  }

  /** A star projection (or an unresolved reference) right after another argument stops the
      text after the separator: `Pair<String, *>` comes out as `Pair<String, `, with the
      diamond left open. */
  lemma AbsentArgumentAfterSeparatorLeavesDiamondOpen(typeText: string, t: KType, next: nat)
    requires 0 < next < |t.arguments| && !t.arguments[next].Of?
    requires t.arguments[next - 1].Of?
    ensures ConvertTypeArgumentToString(typeText, t, next, false) == typeText
  {
  }

  /** Concretely, on `kotlin.Pair<kotlin.String, *>` the generator writes `Pair<String, `. */
  lemma StarAfterStringLeavesDiamondOpen()
    ensures var str := KType(Decl("kotlin", [], "String", false), [], false);
            var pair := KType(Decl("kotlin", [], "Pair", false), [Of(str), Star], false);
            ConvertTypeArgumentToString("Pair", pair, 0, true) == "Pair<String, "
  {
    var str := KType(Decl("kotlin", [], "String", false), [], false);
    var pair := KType(Decl("kotlin", [], "Pair", false), [Of(str), Star], false);
    assert ConvertTypeArgumentToString("", str, 0, true) == "";
    assert ConvertTypeArgumentToString("Pair<String, ", pair, 1, false) == "Pair<String, ";
  }

  /** Concretely, `List<String?>` is written `List<String>`: nested nullability is dropped. */
  lemma NestedNullabilityIsDropped()
    ensures var str := KType(Decl("kotlin", [], "String", false), [], true);
            var list := KType(Decl("kotlin.collections", [], "List", false), [Of(str)], false);
            ConvertTypeArgumentToString("List", list, 0, true) == "List<String>"
  {
    var str := KType(Decl("kotlin", [], "String", false), [], true);
    assert ConvertTypeArgumentToString("", str, 0, true) == "";
  }
}
