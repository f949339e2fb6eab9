/** Facts about sequences that several modules use. */
module Sequences {
  /** `items`, if the condition holds. */
  function When<T>(condition: bool, items: seq<T>): seq<T> {
    if condition then items else []
  }

  lemma Associates<T>(a: seq<T>, b: seq<T>, c: seq<T>)
    ensures a + b + c == a + (b + c)
  {
  }

  lemma FirstThenRest<T>(a: seq<T>, b: seq<T>)
    ensures a + b == if a == [] then b else [a[0]] + (a[1..] + b)
  {
  }
}
