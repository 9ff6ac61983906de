/** Result types and byte strings shared by the models. */
module Common {
  newtype byte = x: int | 0 <= x < 256

  datatype Option<+T> = None | Some(value: T)

  /** A value, or the code of the `RuntimeExecutionError` that was raised. */
  datatype Result<+T> = Ok(value: T) | Err(code: string)

  lemma PrefixStep<T>(s: seq<T>, i: nat)
    requires i < |s|
    ensures s[..i + 1] == s[..i] + [s[i]]
  {
  }

  lemma Regroup<T>(a: seq<T>, b: seq<T>, c: seq<T>)
    ensures (a + b) + c == a + (b + c)
  {
  }

  lemma HeadTail<T>(s: seq<T>)
    requires s != []
    ensures s == [s[0]] + s[1..]
  {
  }

  /** The first code in a list of checks, if any check raised one. */
  function FirstCode(codes: seq<Option<string>>): (r: Option<string>)
    ensures r == None <==> forall k | 0 <= k < |codes| :: codes[k] == None
    ensures r.Some? ==> r in codes
  {
    if codes == [] then None else if codes[0].Some? then codes[0] else
      var rest := FirstCode(codes[1..]);
      assert forall k | 1 <= k < |codes| :: codes[k] == codes[1..][k - 1];
      rest
  }

  lemma {:induction false} FirstCodeAt(codes: seq<Option<string>>, i: nat)
    requires i < |codes| && codes[i].Some? && forall k | 0 <= k < i :: codes[k] == None
    ensures FirstCode(codes) == codes[i]
  {
    if i > 0 {
      assert forall k | 0 <= k < i - 1 :: codes[1..][k] == codes[k + 1];
      FirstCodeAt(codes[1..], i - 1);
    }
  }
}
