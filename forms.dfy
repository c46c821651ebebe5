/**
 * What the sign-up and partner-login screens share: the list of required fields left
 * empty, in form order, and the verdict a screen's `invalidate()` reaches.
 */
module FormRules {
  import opened Base

  const RequiredMessage: string := "Required fields need to be filled."

  /**
   * The names `redFields` uses for the form fields: 'first', 'last', 'email', 'password'
   * and 'passwordConfirm'.
   */
  datatype FieldName = First | Last | Email | Password | PasswordConfirm

  /** A form field: the name `redFields` uses for it and its current text. */
  datatype Field = Field(name: FieldName, text: string)

  /** The name of a field when it is empty, as `if (!field) redFields.push(name)` adds it. */
  function Mark(f: Field): seq<FieldName>
  {
    if f.text == "" then [f.name] else []
  }

  /** The names of the fields left empty, in the order the form lists them. */
  function Blank(fields: seq<Field>): (names: seq<FieldName>)
    ensures |names| <= |fields|
  {
    if fields == [] then [] else Mark(fields[0]) + Blank(fields[1..])
  }

  /** A name is marked iff some field of that name is empty; no mark iff every field is filled. */
  lemma {:induction false} BlankMembers(fields: seq<Field>)
    ensures forall n :: n in Blank(fields) <==>
              exists i :: 0 <= i < |fields| && fields[i].name == n && fields[i].text == ""
    ensures Blank(fields) == [] <==> forall i :: 0 <= i < |fields| ==> fields[i].text != ""
  {
    if fields != [] {
      BlankMembers(fields[1..]);
      assert forall i :: 1 <= i < |fields| ==> fields[i] == fields[1..][i - 1];
      forall n | n in Blank(fields[1..])
        ensures exists i :: 0 <= i < |fields| && fields[i].name == n && fields[i].text == ""
      {
        var j :| 0 <= j < |fields[1..]| && fields[1..][j].name == n && fields[1..][j].text == "";
        assert fields[j + 1] == fields[1..][j];
      }
    }
  }

  /** Blank distributes over the parts of a form: the empty fields keep their order. */
  lemma {:induction false} BlankAppend(xs: seq<Field>, ys: seq<Field>)
    ensures Blank(xs + ys) == Blank(xs) + Blank(ys)
  {
    if xs == [] {
      assert xs + ys == ys;
    } else {
      assert (xs + ys)[1..] == xs[1..] + ys;
      BlankAppend(xs[1..], ys);
    }
  }

  /** The marks of a five-field form, field by field. */
  lemma BlankOfFive(a: Field, b: Field, c: Field, d: Field, e: Field)
    ensures Blank([a, b, c, d, e]) == Mark(a) + Mark(b) + Mark(c) + Mark(d) + Mark(e)
  {
    assert [e][1..] == [];
    assert Blank([e]) == Mark(e);
    assert [d, e][1..] == [e];
    assert Blank([d, e]) == Mark(d) + Blank([e]);
    assert [c, d, e][1..] == [d, e];
    assert Blank([c, d, e]) == Mark(c) + Blank([d, e]);
    assert [b, c, d, e][1..] == [c, d, e];
    assert Blank([b, c, d, e]) == Mark(b) + Blank([c, d, e]);
    assert [a, b, c, d, e][1..] == [b, c, d, e];
    assert Blank([a, b, c, d, e]) == Mark(a) + Blank([b, c, d, e]);
    AppendAssoc(Mark(a), Mark(b), Mark(c), Mark(d), Mark(e));
  }

  lemma AppendAssoc<T>(s1: seq<T>, s2: seq<T>, s3: seq<T>, s4: seq<T>, s5: seq<T>)
    ensures s1 + (s2 + (s3 + (s4 + s5))) == s1 + s2 + s3 + s4 + s5
  {
  }

  /** The checks `invalidate()` can fail, each with the message the screen shows for it. */
  datatype Problem = MissingFields | PasswordMismatch | WeakPassword

  const MismatchMessage: string := "Passwords did not match"
  const WeakMessage: string :=
    "Password must consist of at least 8 characters, and at least 1 lowercase and uppercase letter."

  function Text(p: Problem): string
  {
    match p
    case MissingFields => RequiredMessage
    case PasswordMismatch => MismatchMessage
    case WeakPassword => WeakMessage
  }

  /** The message `invalidate()` returns for a verdict; None is `undefined`. */
  function Message(problem: Option<Problem>): Option<string>
  {
    if problem.Some? then Some(Text(problem.value)) else None
  }

  /**
   * What `invalidate()` decides: the check that failed (None: the form is valid), the
   * fields it marks red (None: it leaves `redFields` alone), and whether it clears the
   * confirmation.
   */
  datatype Verdict = Verdict(problem: Option<Problem>, red: Option<seq<FieldName>>, clearConfirm: bool)
}
