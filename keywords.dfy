/** How the host reads the command lines this callback writes: an ALTER line
    names a well and the line after it carries that well's new target, while a
    SHUTIN line stands alone. A line stream is well formed when it splits into
    such directives. Only these two line shapes are covered, not the host's
    whole keyword language. */
module HostKeywords {
  import opened Outboard

  datatype Option<T> = None | Some(value: T)

  /** One host directive: a new BHP target for a well, or a shut-in. */
  datatype Directive =
    | SetTarget(well: string, target: real)
    | Shut(well: string)

  /** The lines that write one directive. */
  function LinesOf(d: Directive): (cs: seq<Command>)
    ensures 1 <= |cs| <= 2
  {
    match d
    case SetTarget(w, v) => [Alter(w), Value(v)]
    case Shut(w) => [ShutIn(w)]
  }

  /** The lines that write a sequence of directives, in order. */
  function Render(ds: seq<Directive>): (cs: seq<Command>)
    ensures |ds| <= |cs| <= 2 * |ds|
  {
    if ds == [] then [] else LinesOf(ds[0]) + Render(ds[1..])
  }

  /** Splits a line stream into directives; `None` when a value line does not
      follow an ALTER line or an ALTER line has no value line after it. */
  function Parse(cs: seq<Command>): (r: Option<seq<Directive>>)
    ensures |cs| > 0 && cs[0].Value? ==> r.None?
    ensures r.Some? ==> |r.value| <= |cs| <= 2 * |r.value|
    decreases |cs|
  {
    if cs == [] then Some([])
    else
      match cs[0]
      case Value(_) => None
      case ShutIn(w) =>
        (match Parse(cs[1..])
         case None => None
         case Some(ds) => Some([Shut(w)] + ds))
      case Alter(w) =>
        if |cs| < 2 || !cs[1].Value? then None
        else
          match Parse(cs[2..])
          case None => None
          case Some(ds) => Some([SetTarget(w, cs[1].target)] + ds)
  }

  /** Rendering distributes over concatenation. */
  lemma {:induction false} RenderAppend(a: seq<Directive>, b: seq<Directive>)
    ensures Render(a + b) == Render(a) + Render(b)
  {
    if a == [] {
      assert a + b == b;
    } else {
      assert (a + b)[0] == a[0];
      assert (a + b)[1..] == a[1..] + b;
      RenderAppend(a[1..], b);
    }
  }

  /** Every rendered directive sequence reads back as itself. */
  lemma {:induction false} ParseRender(ds: seq<Directive>)
    ensures Parse(Render(ds)) == Some(ds)
  {
    if ds != [] {
      var cs := Render(ds);
      ParseRender(ds[1..]);
      match ds[0]
      case SetTarget(w, v) =>
        assert cs[2..] == Render(ds[1..]);
        assert [SetTarget(w, v)] + ds[1..] == ds;
      case Shut(w) =>
        assert cs[1..] == Render(ds[1..]);
        assert [Shut(w)] + ds[1..] == ds;
    }
  }

  /** Whatever reads back as directives is exactly their rendering. */
  lemma {:induction false} RenderParse(cs: seq<Command>, ds: seq<Directive>)
    requires Parse(cs) == Some(ds)
    ensures Render(ds) == cs
  {
    if cs != [] {
      match cs[0]
      case ShutIn(w) =>
        RenderParse(cs[1..], ds[1..]);
        assert cs == [cs[0]] + cs[1..];
      case Alter(w) =>
        RenderParse(cs[2..], ds[1..]);
        assert cs == [cs[0], cs[1]] + cs[2..];
    }
  }
}
