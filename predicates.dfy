/**
  The filter-expression callbacks and operand resolution of jsonpath.c
  (`compare_*`, `resolvePropertySelectorValue`, `resolveIssetSelector`).

  An operand is what the callbacks read of an `expr_operator`: its string
  `value` and its `value_bool`. String comparison and regular expressions are
  host services (`Values.Host`).
*/
module Predicates {
  import opened Wrappers
  import opened Values
  import Ast

  datatype Operand = Operand(value: string, valueBool: bool)

  /** `compare_lt` (jsonpath.c:320-334). */
  function CompareLt(h: Host, lh: Operand, rh: Operand): bool
  {
    h.cmp(lh.value, rh.value) < 0
  }

  /** `compare_gt` (jsonpath.c:336-350). */
  function CompareGt(h: Host, lh: Operand, rh: Operand): bool
  {
    h.cmp(lh.value, rh.value) > 0
  }

  /** `compare_eq` (jsonpath.c:394-408). */
  function CompareEq(h: Host, lh: Operand, rh: Operand): bool
  {
    h.cmp(lh.value, rh.value) == 0
  }

  /** `compare_lte` (jsonpath.c:352-366): the negation of `compare_gt`. */
  function CompareLte(h: Host, lh: Operand, rh: Operand): (r: bool)
    ensures r == !CompareGt(h, lh, rh)
  {
    h.cmp(lh.value, rh.value) <= 0
  }

  /** `compare_gte` (jsonpath.c:368-382): the negation of `compare_lt`. */
  function CompareGte(h: Host, lh: Operand, rh: Operand): (r: bool)
    ensures r == !CompareLt(h, lh, rh)
  {
    h.cmp(lh.value, rh.value) >= 0
  }

  /** `compare_neq` (jsonpath.c:410-424): the negation of `compare_eq`. */
  function CompareNeq(h: Host, lh: Operand, rh: Operand): (r: bool)
    ensures r == !CompareEq(h, lh, rh)
  {
    h.cmp(lh.value, rh.value) != 0
  }

  /** `compare_and` (jsonpath.c:384-387). */
  function CompareAnd(lh: Operand, rh: Operand): bool
  {
    lh.valueBool && rh.valueBool
  }

  /** `compare_or` (jsonpath.c:389-392). */
  function CompareOr(lh: Operand, rh: Operand): bool
  {
    lh.valueBool || rh.valueBool
  }

  /**
    `compare_isset` (jsonpath.c:426-429). It is applied with the same operand
    on both sides, where it yields that operand's `value_bool`.
  */
  function CompareIsset(lh: Operand, rh: Operand): (r: bool)
    ensures r == CompareAnd(lh, rh)
    ensures lh == rh ==> r == lh.valueBool
  {
    lh.valueBool && rh.valueBool
  }

  /**
    `compare_rgxp` (jsonpath.c:431-458): the right operand is the pattern,
    the left one the subject. A pattern that does not compile never matches.
  */
  function CompareRgxp(h: Host, lh: Operand, rh: Operand): (r: bool)
    ensures !h.compiles(rh.value) ==> !r
    ensures r ==> h.matchCount(rh.value, lh.value) > 0
  {
    if !h.compiles(rh.value) then false else h.matchCount(rh.value, lh.value) > 0
  }

  /** The callbacks `exec_cb_by_token` hands out. */
  datatype Callback =
    | CbEq | CbNeq | CbLt | CbLte | CbGt | CbGte | CbIsset | CbOr | CbAnd | CbRgxp

  /** Calling a callback on a left and a right operand. */
  function Apply(cb: Callback, h: Host, lh: Operand, rh: Operand): bool
  {
    match cb
    case CbEq => CompareEq(h, lh, rh)
    case CbNeq => CompareNeq(h, lh, rh)
    case CbLt => CompareLt(h, lh, rh)
    case CbLte => CompareLte(h, lh, rh)
    case CbGt => CompareGt(h, lh, rh)
    case CbGte => CompareGte(h, lh, rh)
    case CbIsset => CompareIsset(lh, rh)
    case CbOr => CompareOr(lh, rh)
    case CbAnd => CompareAnd(lh, rh)
    case CbRgxp => CompareRgxp(h, lh, rh)
  }

  /**
    For a fixed host comparison exactly one of `<`, `==` and `>` holds, and
    each of `<=`, `>=` and `!=` is the disjunction of the other two.
  */
  lemma ComparisonTrichotomy(h: Host, lh: Operand, rh: Operand)
    ensures CompareLt(h, lh, rh) || CompareEq(h, lh, rh) || CompareGt(h, lh, rh)
    ensures !(CompareLt(h, lh, rh) && CompareEq(h, lh, rh))
    ensures !(CompareLt(h, lh, rh) && CompareGt(h, lh, rh))
    ensures !(CompareEq(h, lh, rh) && CompareGt(h, lh, rh))
    ensures CompareLte(h, lh, rh) == (CompareLt(h, lh, rh) || CompareEq(h, lh, rh))
    ensures CompareGte(h, lh, rh) == (CompareGt(h, lh, rh) || CompareEq(h, lh, rh))
    ensures CompareNeq(h, lh, rh) == (CompareLt(h, lh, rh) || CompareGt(h, lh, rh))
  {
  }

  /** `&&` and `||` are commutative on operands, and `&&` implies `||`. */
  lemma LogicalCallbacks(lh: Operand, rh: Operand)
    ensures CompareAnd(lh, rh) == CompareAnd(rh, lh)
    ensures CompareOr(lh, rh) == CompareOr(rh, lh)
    ensures CompareAnd(lh, rh) ==> CompareOr(lh, rh)
    ensures CompareOr(lh, rh) == !CompareAnd(Operand(lh.value, !lh.valueBool), Operand(rh.value, !rh.valueBool))
  {
  }

  /**
    Following a selector's labels from a value: each label is looked up in
    the value reached so far. A label that is missing, or a value on the way
    that is not an array, ends the walk with nothing.
  */
  function FollowLabels(v: Value, labels: seq<string>): (r: Option<Value>)
    ensures |labels| > 0 && r.Some? ==> v.Arr?
    decreases |labels|
  {
    if |labels| == 0 then Some(v)
    else match Child(v, labels[0])
      case None => None
      case Some(w) => FollowLabels(w, labels[1..])
  }

  /** Following `a + b` is following `a` and then `b` from where `a` ends. */
  lemma {:induction false} FollowLabelsAppend(v: Value, a: seq<string>, b: seq<string>)
    ensures FollowLabels(v, a + b) ==
      match FollowLabels(v, a)
      case None => None
      case Some(w) => FollowLabels(w, b)
    decreases |a|
  {
    if |a| == 0 {
      assert a + b == b;
    } else {
      assert (a + b)[0] == a[0];
      assert (a + b)[1..] == a[1..] + b;
      match Child(v, a[0]) {
        case None =>
        case Some(w) =>
          FollowLabelsAppend(w, a[1..], b);
      }
    }
  }

  /** The text an operand takes for a scalar found in the data. */
  function ScalarText(h: Host, w: Value): string
  {
    match w
    case Bool(b) => if b then Ast.LiteralTrue else Ast.LiteralFalse
    case Str(s) => s
    case _ => h.printable(w)
  }

  /**
    The `value` `resolvePropertySelectorValue` leaves in an operand that held
    `prior`: the text of the scalar the labels lead to, or `prior` when the
    data is not an array, there are no labels, a label is missing or the
    target is not a scalar.
  */
  function PropertyValue(h: Host, v: Value, labels: seq<string>, prior: string): (r: string)
    ensures r != prior ==> v.Arr? && |labels| > 0 && FollowLabels(v, labels).Some? && IsScalar(FollowLabels(v, labels).value)
  {
    if !v.Arr? || |labels| == 0 then prior
    else match FollowLabels(v, labels)
      case None => prior
      case Some(w) => if IsScalar(w) then ScalarText(h, w) else prior
  }

  /**
    The `value_bool` `resolveIssetSelector` leaves in an operand that held
    `prior`: whether every label resolves, or `prior` when there are no labels.
  */
  function IssetValue(v: Value, labels: seq<string>, prior: bool): (r: bool)
  {
    if |labels| == 0 then prior else FollowLabels(v, labels).Some?
  }

  /** An `expr_operator`: its text, its boolean and the labels of its selector path. */
  class ExprOperator {
    var value: string
    var valueBool: bool
    var labels: seq<string>

    constructor (value: string, valueBool: bool, labels: seq<string>)
      ensures this.value == value && this.valueBool == valueBool && this.labels == labels
    {
      this.value := value;
      this.valueBool := valueBool;
      this.labels := labels;
    }

    /** What the comparison callbacks read of this operator. */
    function View(): Operand
      reads this
    {
      Operand(value, valueBool)
    }

    /**
      `resolvePropertySelectorValue` (jsonpath.c:247-300): look the labels up
      one after another and store the text of the scalar found. With no labels
      the C code inspects an uninitialised value; here nothing changes.
    */
    method ResolvePropertySelectorValue(h: Host, v: Value)
      modifies this
      ensures labels == old(labels) && valueBool == old(valueBool)
      ensures value == PropertyValue(h, v, labels, old(value))
    {
      if !v.Arr? || |labels| == 0 {
        return;
      }
      var cur := v;
      var i := 0;
      while i < |labels|
        invariant 0 <= i <= |labels|
        invariant FollowLabels(v, labels) == FollowLabels(cur, labels[i..])
        invariant value == old(value) && labels == old(labels) && valueBool == old(valueBool)
      {
        var data := Child(cur, labels[i]);
        if data.None? {
          return;
        }
        cur := data.value;
        i := i + 1;
      }
      if !IsScalar(cur) {
        return;
      }
      value := ScalarText(h, cur);
    }

    /**
      `resolveIssetSelector` (jsonpath.c:304-318): `value_bool` becomes true
      when a label is found and false, ending the walk, when one is missing.
    */
    method ResolveIssetSelector(v: Value)
      modifies this
      ensures labels == old(labels) && value == old(value)
      ensures valueBool == IssetValue(v, labels, old(valueBool))
    {
      var cur := v;
      var i := 0;
      while i < |labels|
        invariant 0 <= i <= |labels|
        invariant FollowLabels(v, labels) == FollowLabels(cur, labels[i..])
        invariant 0 < i ==> valueBool
        invariant i == 0 ==> valueBool == old(valueBool)
        invariant value == old(value) && labels == old(labels)
      {
        var data := Child(cur, labels[i]);
        if data.None? {
          valueBool := false;
          break;
        }
        valueBool := true;
        cur := data.value;
        i := i + 1;
      }
    }
  }
}
