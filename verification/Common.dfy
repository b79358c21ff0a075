// Shared result types and the error values of pkg/common/errors.go.
module Common {
  datatype Option<+T> = None | Some(value: T)

  datatype Result<+T> = Ok(value: T) | Err(error: Error) {
    predicate IsFailure() {
      Err?
    }

    function PropagateFailure<U>(): Result<U>
      requires Err?
    {
      Err(error)
    }

    function Extract(): T
      requires Ok?
    {
      value
    }
  }

  // An error value: its text, and whether its cause is the "resource was not found" sentinel.
  datatype Error = Error(text: string, notFound: bool)

  function NewError(text: string): Error {
    Error(text, false)
  }

  function NotFoundError(message: string): Error {
    Error(message + ": resource was not found", true)
  }

  // common.Wrap: the second error's text is put in front of the first one, whose cause survives.
  function Wrap(err1: Option<Error>, err2: Option<Error>): Option<Error> {
    match (err1, err2)
    case (Some(e1), Some(e2)) => Some(Error(e2.text + ": " + e1.text, e1.notFound))
    case (Some(_), None) => err1
    case (None, _) => err2
  }

  ghost predicate Contains(text: string, part: string) {
    exists i :: IsAt(text, part, i)
  }

  ghost predicate IsAt(text: string, part: string, i: int) {
    0 <= i && i + |part| <= |text| && text[i..i + |part|] == part
  }

  lemma ContainsSelf(text: string)
    ensures Contains(text, text)
  {
    assert IsAt(text, text, 0);
  }

  // Text survives being put between other text.
  lemma ContainsInside(before: string, text: string, after: string, part: string)
    requires Contains(text, part)
    ensures Contains(before + text + after, part)
  {
    var i :| IsAt(text, part, i);
    var whole := before + text + after;
    assert whole[|before| + i..|before| + i + |part|] == text[i..i + |part|];
    assert IsAt(whole, part, |before| + i);
  }

  lemma ContainsThrough(text: string, part: string, inner: string)
    requires Contains(text, part) && Contains(part, inner)
    ensures Contains(text, inner)
  {
    var i :| IsAt(text, part, i);
    assert text == text[..i] + part + text[i + |part|..];
    ContainsInside(text[..i], part, text[i + |part|..], inner);
  }

  // No error is lost: wrapping fails exactly when one side does, and keeps both texts and the first one's cause.
  lemma WrapKeepsBoth(err1: Option<Error>, err2: Option<Error>)
    ensures Wrap(err1, err2).Some? <==> err1.Some? || err2.Some?
    ensures err1.Some? ==> Wrap(err1, err2).value.notFound == err1.value.notFound
    ensures err1 == None ==> Wrap(err1, err2) == err2
    ensures err1.Some? ==> forall part :: Contains(err1.value.text, part) ==> Contains(Wrap(err1, err2).value.text, part)
    ensures err2.Some? ==> forall part :: Contains(err2.value.text, part) ==> Contains(Wrap(err1, err2).value.text, part)
  {
    if err1.Some? && err2.Some? {
      var t1, t2 := err1.value.text, err2.value.text;
      forall part | Contains(t1, part) ensures Contains(t2 + ": " + t1, part) {
        ContainsInside(t2 + ": ", t1, "", part);
        assert t2 + ": " + t1 + "" == t2 + ": " + t1;
      }
      forall part | Contains(t2, part) ensures Contains(t2 + ": " + t1, part) {
        ContainsInside("", t2, ": " + t1, part);
        assert "" + t2 + (": " + t1) == t2 + ": " + t1;
      }
    }
  }
}
