/** Notions shared by the modules: options, lists without repeats, joined texts, sizes of sets, Python's whitespace. */
module Common {

  datatype Option<T> = None | Some(value: T)

  ghost predicate Distinct<T>(items: seq<T>) {
    forall i, j :: 0 <= i < j < |items| ==> items[i] != items[j]
  }

  /** The list without repeats: an item keeps its place when no earlier one equals it. */
  function WithoutRepeats<T(==)>(items: seq<T>): seq<T> {
    if items == [] then []
    else
      var front, last := items[..|items| - 1], items[|items| - 1];
      if last in front then WithoutRepeats(front) else WithoutRepeats(front) + [last]
  }

  lemma {:induction false} KeptOnce<T>(items: seq<T>)
    ensures Distinct(WithoutRepeats(items))
    ensures forall x :: x in WithoutRepeats(items) <==> x in items
  {
    if items != [] {
      var front, last := items[..|items| - 1], items[|items| - 1];
      KeptOnce(front);
      assert items == front + [last];
    }
  }

  /** "".join of the parts. */
  function Concat(parts: seq<string>): string {
    if parts == [] then "" else Concat(parts[..|parts| - 1]) + parts[|parts| - 1]
  }

  lemma ConcatOneMore(parts: seq<string>, part: string)
    ensures Concat([]) == "" && Concat(parts + [part]) == Concat(parts) + part
  {
    assert (parts + [part])[..|parts|] == parts;
  }

  lemma SubsetSize<T>(a: set<T>, b: set<T>)
    requires a <= b
    ensures |a| <= |b|
  {
    if a != {} {
      var x :| x in a;
      SubsetSize(a - {x}, b - {x});
    }
  }

  lemma InjectionSize<A, B>(a: set<A>, b: set<B>, f: A -> B)
    requires forall x :: x in a ==> f(x) in b
    requires forall x, y :: x in a && y in a && f(x) == f(y) ==> x == y
    ensures |a| <= |b|
  {
    if a != {} {
      var x :| x in a;
      InjectionSize(a - {x}, b - {f(x)}, f);
    }
  }

  predicate Contains(part: string, t: string) {
    part <= t || (t != "" && Contains(part, t[1..]))
  }

  /** The characters that str.strip() removes and \s matches. */
  predicate IsSpace(c: char) {
    || c == ' ' || '\t' <= c <= '\r' || '\U{1C}' <= c <= '\U{1F}' || c == '\U{85}' || c == '\U{A0}'
    || c == '\U{1680}' || '\U{2000}' <= c <= '\U{200A}' || c == '\U{2028}' || c == '\U{2029}'
    || c == '\U{202F}' || c == '\U{205F}' || c == '\U{3000}'
  }

  function StripStart(t: string): string { if t != "" && IsSpace(t[0]) then StripStart(t[1..]) else t }

  function StripEnd(t: string): string { if t != "" && IsSpace(t[|t| - 1]) then StripEnd(t[..|t| - 1]) else t }

  function Strip(t: string): string { StripEnd(StripStart(t)) }
}
