/**
 * The quadratic-equation workflow: print the equation, compute the
 * discriminant over the integers, and branch three ways on its sign.
 *
 * The root nodes format floating-point roots; the model takes the printed
 * roots as parameters and keeps the text around them and the one error the
 * nodes can raise (division by zero in the repeated-root node).
 */
module QuadraticWorkflow {
  import opened Wrappers
  import opened Text

  /** The state; keys the input does not set start out absent. */
  datatype QuadState = QuadState(
    a: int,
    b: int,
    c: int,
    equation: Option<string>,
    discriminant: Option<int>,
    result: Option<string>)

  datatype QuadNode = ShowEquation | CalcDiscriminant | RealRoots | RepeatedRoots | NoRealRoots

  /** Every node returns a one-key partial update. */
  datatype QuadUpdate = SetEquation(equation: string) | SetDiscriminant(discriminant: int) | SetResult(result: string)

  datatype QuadError = ZeroDivisionError

  /** A whole run: the nodes executed, in order, and the final state. */
  datatype QuadRun = QuadRun(trace: seq<QuadNode>, final: QuadState)

  /** Merging a partial update overwrites the one key it names and nothing else. */
  function Apply(s: QuadState, u: QuadUpdate): (r: QuadState)
    ensures r.a == s.a && r.b == s.b && r.c == s.c
    ensures r.equation == if u.SetEquation? then Some(u.equation) else s.equation
    ensures r.discriminant == if u.SetDiscriminant? then Some(u.discriminant) else s.discriminant
    ensures r.result == if u.SetResult? then Some(u.result) else s.result
  {
    match u
    case SetEquation(e) => s.(equation := Some(e))
    case SetDiscriminant(d) => s.(discriminant := Some(d))
    case SetResult(t) => s.(result := Some(t))
  }

  /** The f-string of the equation node: the coefficients' `str` glued by "x2" and "x". */
  function Equation(a: int, b: int, c: int): string {
    IntToString(a) + "x2" + IntToString(b) + "x" + IntToString(c)
  }

  /** Reads the coefficients back out of an equation string. */
  function DecodeEquation(e: string): Option<(int, int, int)> {
    var i := IndexOf(e, 'x');
    if i + 1 >= |e| || e[i + 1] != '2' then None
    else
      var rest := e[i + 2..];
      var j := IndexOf(rest, 'x');
      if j == |rest| then None
      else Some((ParseInt(e[..i]), ParseInt(rest[..j]), ParseInt(rest[j + 1..])))
  }

  lemma NoXInNumber(n: int)
    ensures forall j :: 0 <= j < |IntToString(n)| ==> IntToString(n)[j] != 'x'
  {
  }

  /** Splitting at the first 'x' of `a + "x" + rest` when `a` has none. */
  lemma SplitAtX(a: string, rest: string)
    requires forall j :: 0 <= j < |a| ==> a[j] != 'x'
    ensures IndexOf(a + "x" + rest, 'x') == |a|
    ensures (a + "x" + rest)[..|a|] == a && (a + "x" + rest)[|a| + 1..] == rest
  {
    assert a + "x" + rest == a + ("x" + rest);
    IndexOfAfter(a, "x" + rest, 'x');
  }

  /** Decoding glued terms whose first two numbers contain no 'x'. */
  lemma DecodeGlued(sa: string, sb: string, sc: string)
    requires forall j :: 0 <= j < |sa| ==> sa[j] != 'x'
    requires forall j :: 0 <= j < |sb| ==> sb[j] != 'x'
    ensures DecodeEquation(sa + "x2" + sb + "x" + sc) == Some((ParseInt(sa), ParseInt(sb), ParseInt(sc)))
  {
    var tail := "2" + sb + "x" + sc;
    var e := sa + "x2" + sb + "x" + sc;
    assert e == sa + "x" + tail;
    SplitAtX(sa, tail);
    var i := IndexOf(e, 'x');
    assert e[i + 1] == '2';
    var rest := e[i + 2..];
    assert rest == tail[1..];
    assert rest == sb + "x" + sc;
    SplitAtX(sb, sc);
  }

  /**
   * Although no sign is added between the terms, the equation string still
   * determines the coefficients: decoding it gives them back.
   */
  lemma EquationDecodes(a: int, b: int, c: int)
    ensures DecodeEquation(Equation(a, b, c)) == Some((a, b, c))
  {
    NoXInNumber(a);
    NoXInNumber(b);
    DecodeGlued(IntToString(a), IntToString(b), IntToString(c));
    ParseIntToString(a);
    ParseIntToString(b);
    ParseIntToString(c);
  }

  lemma EquationInjective(a: int, b: int, c: int, a': int, b': int, c': int)
    requires Equation(a, b, c) == Equation(a', b', c')
    ensures a == a' && b == b' && c == c'
  {
    EquationDecodes(a, b, c);
    EquationDecodes(a', b', c');
  }

  /** The script's input prints as "4x2-5x-4". */
  lemma ScriptEquation()
    ensures Equation(4, -5, -4) == "4x2-5x-4"
  {
    assert IntToString(4) == "4";
    assert NatToString(5) == "5";
    assert IntToString(-5) == "-5";
    assert IntToString(-4) == "-4";
  }

  function Discriminant(a: int, b: int, c: int): int {
    b * b - 4 * a * c
  }

  /** The three-way router: exactly one label for every discriminant. */
  function CheckCondition(d: int): (r: QuadNode)
    ensures r == RealRoots || r == RepeatedRoots || r == NoRealRoots
    ensures r == RealRoots <==> d > 0
    ensures r == RepeatedRoots <==> d == 0
    ensures r == NoRealRoots <==> d < 0
  {
    if d > 0 then RealRoots
    else if d == 0 then RepeatedRoots
    else NoRealRoots
  }

  function ShowEquationNode(s: QuadState): QuadUpdate {
    SetEquation(Equation(s.a, s.b, s.c))
  }

  function CalcDiscriminantNode(s: QuadState): QuadUpdate {
    SetDiscriminant(Discriminant(s.a, s.b, s.c))
  }

  /** `root1` and `root2` are the printed floating-point roots. */
  function RealRootsNode(root1: string, root2: string): QuadUpdate {
    SetResult("The roots are " + root1 + " and " + root2)
  }

  /** Divides by `2 * a`: raises when `a` is zero. `root` is the printed root. */
  function RepeatedRootsNode(s: QuadState, root: string): Result<QuadUpdate, QuadError> {
    if s.a == 0 then Err(ZeroDivisionError)
    else Ok(SetResult("Only repeating root is " + root))
  }

  function NoRealRootsNode(): QuadUpdate {
    SetResult("No real roots")
  }

  /** The compiled graph: START, show_equation, calc_discriminant, one root node, END. */
  function Invoke(a: int, b: int, c: int, root1: string, root2: string, root: string): Result<QuadRun, QuadError> {
    var s0 := QuadState(a, b, c, None, None, None);
    var s1 := Apply(s0, ShowEquationNode(s0));
    var s2 := Apply(s1, CalcDiscriminantNode(s1));
    var route := CheckCondition(s2.discriminant.value);
    var prefix := [ShowEquation, CalcDiscriminant, route];
    match route
    case RealRoots => Ok(QuadRun(prefix, Apply(s2, RealRootsNode(root1, root2))))
    case NoRealRoots => Ok(QuadRun(prefix, Apply(s2, NoRealRootsNode())))
    case _ =>
      match RepeatedRootsNode(s2, root)
      case Err(e) => Err(e)
      case Ok(u) => Ok(QuadRun(prefix, Apply(s2, u)))
  }

  /** With `a = 0` the discriminant is `b * b`, so it is zero exactly when `b` is. */
  lemma LinearDiscriminant(a: int, b: int, c: int)
    requires a == 0
    ensures Discriminant(a, b, c) == 0 <==> b == 0
  {
    if b != 0 {
      assert b * b > 0 by {
        if b > 0 {
          assert b * b >= b;
        } else {
          assert b * b == (-b) * (-b);
          assert (-b) * (-b) >= -b;
        }
      }
    }
  }

  /**
   * Every run executes show_equation, calc_discriminant and exactly the root
   * node the sign of the discriminant selects, then ends; it raises only when
   * the repeated-root node divides by `2 * a = 0`, which happens exactly when
   * `a` and `b` are both zero.
   */
  lemma InvokeOutcome(a: int, b: int, c: int, root1: string, root2: string, root: string)
    ensures Invoke(a, b, c, root1, root2, root).Err? <==> a == 0 && b == 0
    ensures Invoke(a, b, c, root1, root2, root).Ok? ==>
      var run := Invoke(a, b, c, root1, root2, root).value;
      && run.trace == [ShowEquation, CalcDiscriminant, CheckCondition(Discriminant(a, b, c))]
      && run.final.a == a && run.final.b == b && run.final.c == c
      && run.final.equation == Some(Equation(a, b, c))
      && run.final.discriminant == Some(Discriminant(a, b, c))
      && (Discriminant(a, b, c) > 0 ==> run.final.result == Some("The roots are " + root1 + " and " + root2))
      && (Discriminant(a, b, c) == 0 ==> run.final.result == Some("Only repeating root is " + root))
      && (Discriminant(a, b, c) < 0 ==> run.final.result == Some("No real roots"))
  {
    if a == 0 {
      LinearDiscriminant(a, b, c);
    }
  }

  /** The script's run: discriminant 89, routed to real_roots. */
  lemma ScriptRun(root1: string, root2: string, root: string)
    ensures Invoke(4, -5, -4, root1, root2, root).Ok?
    ensures Invoke(4, -5, -4, root1, root2, root).value.final.discriminant == Some(89)
    ensures Invoke(4, -5, -4, root1, root2, root).value.trace == [ShowEquation, CalcDiscriminant, RealRoots]
    ensures Invoke(4, -5, -4, root1, root2, root).value.final.equation == Some("4x2-5x-4")
  {
    ScriptEquation();
  }
}
