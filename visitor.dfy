/**
 * visitor.go: the double-dispatch walker that appends the compact rendering of
 * a value to a buffer, and the String() methods of json.go that use it.
 *
 * Render is the rendering the walker leaves behind. Strings and keys are
 * emitted raw (no quotes, no escaping); object members appear in the order of
 * the member list.
 */
module Walk {
  import opened Json
  import opened Decimal
  import LexSpec

  /** The text walkBool writes: the keyword the scanner reads back as that boolean. */
  function BoolText(b: bool): (r: string)
    ensures LexSpec.Lookup(r) == if b then LexSpec.TokenTrue else LexSpec.TokenFalse
  {
    if b then "true" else "false"
  }

  /**
   * Only a string can render as nothing; containers are bracketed; a number
   * reads back through Atoi and a keyword through the scanner's Lookup.
   */
  function Render(v: Value): (r: string)
    ensures |r| == 0 ==> v.String?
    ensures v.Object? ==> |r| >= 2 && r[0] == '{' && r[|r| - 1] == '}'
    ensures v.Array? ==> |r| >= 2 && r[0] == '[' && r[|r| - 1] == ']'
    ensures v.Number? ==> Atoi(r) == v.n
    ensures v.Bool? || v.Null? ==> LexSpec.Lookup(r) == if v.Null? then LexSpec.TokenNull else if v.b then LexSpec.TokenTrue else LexSpec.TokenFalse
  {
    match v
    case Object(ms) => "{" + RenderMembers(ms) + "}"
    case Array(es) => "[" + RenderElements(es) + "]"
    case String(s) => s
    case Number(n) => AtoiItoa(n); Itoa(n as int)
    case Bool(b) => BoolText(b)
    case Null => "null"
  }

  /** The rendered elements joined by ','. */
  function RenderElements(es: seq<Value>): (r: string)
    ensures r == [] <==> es == [] || es == [String("")]
  {
    if |es| == 0 then ""
    else if |es| == 1 then Render(es[0])
    else RenderElements(es[..|es| - 1]) + "," + Render(es[|es| - 1])
  }

  /** The key, then the separating ':', then the value. */
  function RenderMember(m: Member): (r: string)
    ensures |r| > |m.key| && r[..|m.key|] == m.key && r[|m.key|] == ':'
  {
    m.key + ":" + Render(m.value)
  }

  /** The rendered `key:value` pairs joined by ','. */
  function RenderMembers(ms: seq<Member>): (r: string)
    ensures r == [] <==> ms == []
  {
    if |ms| == 0 then ""
    else if |ms| == 1 then RenderMember(ms[0])
    else RenderMembers(ms[..|ms| - 1]) + "," + RenderMember(ms[|ms| - 1])
  }

  /** What walkObject writes for one member is its rendering. */
  lemma MemberAppended(before: string, m: Member, after: string)
    requires after == before + m.key + ":" + Render(m.value)
    ensures after == before + RenderMember(m)
  {
  }

  /** One more member, after a separator unless it is the first. */
  lemma MembersStep(start: string, ms: seq<Member>, i: nat)
    requires i < |ms|
    ensures start + RenderMembers(ms[..i]) + (if 0 < i then "," else "") + RenderMember(ms[i]) ==
      start + RenderMembers(ms[..i + 1])
  {
    assert ms[..i + 1][..i] == ms[..i];
    if i == 0 {
      assert RenderMembers(ms[..i]) == "";
    }
  }

  /** One more element, after a separator unless it is the first. */
  lemma ElementsStep(start: string, es: seq<Value>, i: nat)
    requires i < |es|
    ensures start + RenderElements(es[..i]) + (if 0 < i then "," else "") + Render(es[i]) ==
      start + RenderElements(es[..i + 1])
  {
    assert es[..i + 1][..i] == es[..i];
    if i == 0 {
      assert RenderElements(es[..i]) == "";
    }
  }

  /** Closing a container: the prefix, the opening bracket, the contents and the closing one. */
  lemma Closed(prefix: string, open: string, body: string, close: string)
    ensures prefix + open + body + "" + close == prefix + (open + body + close)
  {
  }

  class NodeVisitor {
    var buf: string

    constructor ()
      ensures buf == ""
    {
      buf := "";
    }

    /** accept: each variant calls the walker method for its own kind. */
    method Accept(v: Value)
      modifies this
      ensures buf == old(buf) + Render(v)
      decreases v
    {
      match v
      case Object(ms) => WalkObject(ms);
      case Array(es) => WalkArray(es);
      case String(s) => WalkString(s);
      case Number(n) => WalkNumber(n);
      case Bool(b) => WalkBool(b);
      case Null => WalkNull();
    }

    method WalkObject(ms: seq<Member>)
      modifies this
      ensures buf == old(buf) + Render(Object(ms))
      decreases ms
    {
      buf := buf + "{";
      ghost var start := buf;
      var num := |ms|;
      var i := 0;
      while i < num
        invariant i <= num
        invariant buf == start + RenderMembers(ms[..i]) + (if 0 < i < num then "," else "")
      {
        ghost var before := buf;
        buf := buf + ms[i].key;
        buf := buf + ":";
        Accept(ms[i].value);
        MemberAppended(before, ms[i], buf);
        MembersStep(start, ms, i);
        if i == num - 1 {
          i := i + 1;
          assert buf == start + RenderMembers(ms[..i]) + "";
          break;
        }
        buf := buf + ",";
        i := i + 1;
      }
      Closed(old(buf), "{", RenderMembers(ms[..num]), "}");
      assert ms[..num] == ms;
      buf := buf + "}";
    }

    method WalkArray(es: seq<Value>)
      modifies this
      ensures buf == old(buf) + Render(Array(es))
      decreases es
    {
      buf := buf + "[";
      ghost var start := buf;
      var num := |es|;
      for i := 0 to num
        invariant buf == start + RenderElements(es[..i]) + (if 0 < i < num then "," else "")
      {
        Accept(es[i]);
        ElementsStep(start, es, i);
        if i == num - 1 {
          assert buf == start + RenderElements(es[..i + 1]) + "";
          break;
        }
        buf := buf + ",";
      }
      Closed(old(buf), "[", RenderElements(es[..num]), "]");
      assert es[..num] == es;
      buf := buf + "]";
    }

    method WalkString(s: string)
      modifies this
      ensures buf == old(buf) + s
    {
      buf := buf + s;
    }

    /** fmt.Sprint of a JNumber: its decimal text. */
    method WalkNumber(n: int64)
      modifies this
      ensures buf == old(buf) + Itoa(n as int)
      ensures Atoi(buf[|old(buf)|..]) == n
    {
      buf := buf + Itoa(n as int);
      assert buf[|old(buf)|..] == Itoa(n as int);
      AtoiItoa(n);
    }

    /** fmt.Sprintf("%t") of a JBool. */
    method WalkBool(b: bool)
      modifies this
      ensures buf == old(buf) + BoolText(b)
    {
      buf := buf + BoolText(b);
    }

    /** JNull's String(): "null". */
    method WalkNull()
      modifies this
      ensures buf == old(buf) + "null"
    {
      buf := buf + "null";
    }
  }

  /**
   * The String() methods of json.go: scalars format themselves, objects and
   * arrays run a fresh walker. Both routes give the walker's rendering.
   */
  method ToString(v: Value) returns (s: string)
    ensures s == Render(v)
  {
    match v {
      case Object(_) =>
        var w := new NodeVisitor();
        w.Accept(v);
        s := w.buf;
      case Array(_) =>
        var w := new NodeVisitor();
        w.Accept(v);
        s := w.buf;
      case String(str) => s := str;
      case Number(n) => s := Itoa(n as int);
      case Bool(b) => s := if b then "true" else "false";
      case Null => s := "null";
    }
  }

  /** Occurrences of c in s. */
  function Count(s: string, c: char): nat
  {
    if s == [] then 0 else Count(s[..|s| - 1], c) + (if s[|s| - 1] == c then 1 else 0)
  }

  lemma {:induction false} CountConcat(a: string, b: string, c: char)
    ensures Count(a + b, c) == Count(a, c) + Count(b, c)
  {
    if b != [] {
      assert (a + b)[..|a + b| - 1] == a + b[..|b| - 1];
      CountConcat(a, b[..|b| - 1], c);
    } else {
      assert a + b == a;
    }
  }

  /** The commas inside the rendered elements themselves. */
  function InnerCommas(es: seq<Value>): nat
  {
    if es == [] then 0 else InnerCommas(es[..|es| - 1]) + Count(Render(es[|es| - 1]), ',')
  }

  /** The commas inside the rendered members themselves. */
  function InnerMemberCommas(ms: seq<Member>): nat
  {
    if ms == [] then 0 else InnerMemberCommas(ms[..|ms| - 1]) + Count(RenderMember(ms[|ms| - 1]), ',')
  }

  /** An array of n >= 1 elements gets exactly n - 1 separators between them. */
  lemma {:induction false} ElementSeparators(es: seq<Value>)
    requires |es| >= 1
    ensures Count(RenderElements(es), ',') == |es| - 1 + InnerCommas(es)
  {
    var p := es[..|es| - 1];
    if |es| == 1 {
      assert p == [];
    } else {
      ElementSeparators(p);
      CountConcat(RenderElements(p), ",", ',');
      CountConcat(RenderElements(p) + ",", Render(es[|es| - 1]), ',');
      assert Count(",", ',') == 1 by {
        assert ","[..0] == [];
      }
    }
  }

  /** An object of n >= 1 members gets exactly n - 1 separators between them. */
  lemma {:induction false} MemberSeparators(ms: seq<Member>)
    requires |ms| >= 1
    ensures Count(RenderMembers(ms), ',') == |ms| - 1 + InnerMemberCommas(ms)
  {
    var p := ms[..|ms| - 1];
    if |ms| == 1 {
      assert p == [];
    } else {
      MemberSeparators(p);
      CountConcat(RenderMembers(p), ",", ',');
      CountConcat(RenderMembers(p) + ",", RenderMember(ms[|ms| - 1]), ',');
      assert Count(",", ',') == 1 by {
        assert ","[..0] == [];
      }
    }
  }

  /** Containers are bracketed; the empty object is the only one rendering as "{}", and the empty array renders as "[]". */
  lemma ContainerBrackets(v: Value)
    requires v.Object? || v.Array?
    ensures var r := Render(v);
      |r| >= 2 &&
      (v.Object? ==> r[0] == '{' && r[|r| - 1] == '}' && (v.members == [] <==> r == "{}")) &&
      (v.Array? ==> r[0] == '[' && r[|r| - 1] == ']' && (v.elements == [] ==> r == "[]"))
  {
    var r := Render(v);
    if v.Object? && v.members != [] {
      var m := v.members[|v.members| - 1];
      assert |RenderMember(m)| >= 1;
      RenderMembersSuffix(v.members);
    }
  }

  lemma {:induction false} RenderMembersSuffix(ms: seq<Member>)
    requires ms != []
    ensures |RenderMembers(ms)| >= 1
  {
    var m := ms[|ms| - 1];
    assert |m.key + ":"| >= 1;
  }

  /** Strings are emitted raw, so an array holding one empty string also renders as "[]". */
  lemma EmptyStringElementLooksEmpty()
    ensures Render(Array([String("")])) == Render(Array([]))
  {
  }

  /** A rendered number reads back as the same number. */
  lemma RenderNumberReadsBack(n: int64)
    ensures Atoi(Render(Number(n))) == n
  {
    AtoiItoa(n);
  }
}
