/**
 * Python's `str.format(**kwargs)` over a template without format specs,
 * conversions or doubled braces: the template is a sequence of literal text
 * and `{name}` replacement fields, and the keyword arguments map each name to
 * the text it stands for.
 */
module MacroTemplate {
  import opened Wrappers

  /** A piece of a template: literal text, or a replacement field naming a keyword argument. */
  datatype Segment<K> = Lit(text: string) | Field(name: K)

  type Template<K> = seq<Segment<K>>

  /** Every replacement field of `t` has a keyword argument in `kwargs`. */
  predicate Covers<K>(t: Template<K>, kwargs: map<K, string>) {
    forall i | 0 <= i < |t| :: t[i].Field? ==> t[i].name in kwargs
  }

  /** What one segment contributes to the formatted text. */
  function Emit<K>(s: Segment<K>, kwargs: map<K, string>): string
    requires s.Field? ==> s.name in kwargs
  {
    match s
    case Lit(text) => text
    case Field(name) => kwargs[name]
  }

  /**
   * `t.format(**kwargs)`: literal text as it stands, each field replaced by its
   * argument; the first field (left to right) without an argument raises a
   * KeyError that names it.
   */
  function Format<K>(t: Template<K>, kwargs: map<K, string>): (r: Result<string, K>)
    ensures r.Ok? <==> Covers(t, kwargs)
    ensures r.Err? ==> r.error !in kwargs
    decreases |t|
  {
    if t == [] then Ok("")
    else if t[0].Field? && t[0].name !in kwargs then Err(t[0].name)
    else
      var rest := Format(t[1..], kwargs);
      if rest.Err? then rest
      else
        assert forall i | 1 <= i < |t| :: t[i] == t[1..][i - 1];
        Ok(Emit(t[0], kwargs) + rest.value)
  }

  /** The KeyError names the leftmost field that has no argument. */
  lemma {:induction false} FormatFirstMissing<K>(t: Template<K>, kwargs: map<K, string>) returns (i: nat)
    requires Format(t, kwargs).Err?
    ensures i < |t| && t[i] == Field(Format(t, kwargs).error)
    ensures Covers(t[..i], kwargs)
    decreases |t|
  {
    if t[0].Field? && t[0].name !in kwargs {
      i := 0;
    } else {
      var j := FormatFirstMissing(t[1..], kwargs);
      i := j + 1;
      assert t[..i] == [t[0]] + t[1..][..j];
    }
  }

  /** Formatting distributes over concatenation of templates; the left part's error comes first. */
  lemma {:induction false} FormatConcat<K>(a: Template<K>, b: Template<K>, kwargs: map<K, string>)
    ensures Format(a + b, kwargs) ==
      if Format(a, kwargs).Err? then Format(a, kwargs)
      else if Format(b, kwargs).Err? then Format(b, kwargs)
      else Ok(Format(a, kwargs).value + Format(b, kwargs).value)
    decreases |a|
  {
    if a == [] {
      assert a + b == b;
      if Format(b, kwargs).Ok? {
        assert "" + Format(b, kwargs).value == Format(b, kwargs).value;
      }
    } else {
      assert (a + b)[0] == a[0];
      assert (a + b)[1..] == a[1..] + b;
      FormatConcat(a[1..], b, kwargs);
      var fa, fb := Format(a[1..], kwargs), Format(b, kwargs);
      if !(a[0].Field? && a[0].name !in kwargs) && fa.Ok? && fb.Ok? {
        var e := Emit(a[0], kwargs);
        assert e + (fa.value + fb.value) == (e + fa.value) + fb.value;
      }
    }
  }

  /**
   * Substitution at one position: the formatted text is the formatting of what
   * precedes segment `i`, then that segment's literal text or argument, then
   * the formatting of what follows it.
   */
  lemma FormatAt<K>(t: Template<K>, i: int, kwargs: map<K, string>)
    requires Format(t, kwargs).Ok? && 0 <= i < |t|
    ensures t[i].Field? ==> t[i].name in kwargs
    ensures Format(t[..i], kwargs).Ok? && Format(t[i + 1..], kwargs).Ok?
    ensures Format(t, kwargs).value ==
      Format(t[..i], kwargs).value + Emit(t[i], kwargs) + Format(t[i + 1..], kwargs).value
  {
    assert t == t[..i] + ([t[i]] + t[i + 1..]);
    FormatConcat(t[..i], [t[i]] + t[i + 1..], kwargs);
    FormatConcat([t[i]], t[i + 1..], kwargs);
    assert Format([t[i]], kwargs) == Ok(Emit(t[i], kwargs) + "");
  }

  /** The two argument maps give every field of `t` the same answer: present with the same text, or both absent. */
  predicate AgreeOn<K>(t: Template<K>, kwargs1: map<K, string>, kwargs2: map<K, string>) {
    forall i | 0 <= i < |t| && t[i].Field? ::
      && (t[i].name in kwargs1 <==> t[i].name in kwargs2)
      && (t[i].name in kwargs1 ==> kwargs1[t[i].name] == kwargs2[t[i].name])
  }

  /** The formatted text depends only on the arguments that some field names. */
  lemma {:induction false} FormatIgnoresUnusedArguments<K>(t: Template<K>, kwargs1: map<K, string>, kwargs2: map<K, string>)
    requires AgreeOn(t, kwargs1, kwargs2)
    ensures Format(t, kwargs1) == Format(t, kwargs2)
    decreases |t|
  {
    if t != [] {
      assert forall i | 0 <= i < |t| - 1 :: t[1..][i] == t[i + 1];
      FormatIgnoresUnusedArguments(t[1..], kwargs1, kwargs2);
    }
  }
}
