/** Optional values and results shared by every module of the model. */
module Wrappers {

  /** A value that may be missing: Python's `None` or an absent key. */
  datatype Option<T> = None | Some(value: T)
  {
    function UnwrapOr(default: T): T
    {
      match this
      case Some(v) => v
      case None => default
    }
  }

  /** The outcome of a step that may raise: `Err` carries the exception's message. */
  datatype Result<T> = Ok(value: T) | Err(error: string)

  /**
   * The first value present, as in a chain of `if x is None: x = next_try()` steps or early
   * returns: a later option counts only when every earlier one gave nothing.
   */
  function FirstOf<T>(options: seq<Option<T>>): (r: Option<T>)
    ensures r.None? <==> forall k :: 0 <= k < |options| ==> options[k].None?
    ensures r.Some? ==>
      exists k :: 0 <= k < |options| && options[k] == r && forall j :: 0 <= j < k ==> options[j].None?
  {
    if |options| == 0 then None
    else if options[0].Some? then options[0]
    else
      var rest := FirstOf(options[1..]);
      assert forall k :: 1 <= k < |options| ==> options[k] == options[1..][k - 1];
      rest
  }

  /** The first option present is the one `FirstOf` gives. */
  lemma FirstOfAt<T>(options: seq<Option<T>>, i: nat)
    requires i < |options| && options[i].Some?
    requires forall j :: 0 <= j < i ==> options[j].None?
    ensures FirstOf(options) == options[i]
  {
    assert FirstOf(options).Some?;
    var k :| 0 <= k < |options| && options[k] == FirstOf(options) && forall j :: 0 <= j < k ==> options[j].None?;
    if k < i {
      assert false;
    } else if i < k {
      assert false;
    }
  }

  /** `FirstOf` on five options, written out. */
  lemma FirstOfFive<T>(a: Option<T>, b: Option<T>, c: Option<T>, d: Option<T>, e: Option<T>)
    ensures FirstOf([a, b, c, d, e]) ==
      if a.Some? then a else if b.Some? then b else if c.Some? then c else if d.Some? then d else e
  {
    assert [a, b, c, d, e][1..] == [b, c, d, e];
    assert [b, c, d, e][1..] == [c, d, e];
    assert [c, d, e][1..] == [d, e];
    assert [d, e][1..] == [e];
    assert FirstOf([e]) == e by {
      assert [e][1..] == [];
    }
    assert FirstOf([d, e]) == if d.Some? then d else FirstOf([e]);
    assert FirstOf([c, d, e]) == if c.Some? then c else FirstOf([d, e]);
    assert FirstOf([b, c, d, e]) == if b.Some? then b else FirstOf([c, d, e]);
    assert FirstOf([a, b, c, d, e]) == if a.Some? then a else FirstOf([b, c, d, e]);
  }
}
