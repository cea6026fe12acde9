/**
 * Kotlin's `Iterable.joinTo(buffer, separator = ", ", prefix, postfix, transform)`
 * as the processor uses it: every element is rendered by the same placeholder
 * text, so what is appended depends only on the number of elements.
 */
module Join {
  import opened Poet

  /** `n` copies of `item`, separated by `", "`. */
  function Joined(n: nat, item: string): string {
    if n == 0 then ""
    else if n == 1 then item
    else Joined(n - 1, item) + ", " + item
  }

  /** Appends `prefix`, one `item` per element separated by `", "`, and `postfix` to `buffer`. */
  method JoinTo<T>(elements: seq<T>, buffer: string, prefix: string, postfix: string, item: string)
    returns (r: string)
    ensures r == buffer + prefix + Joined(|elements|, item) + postfix
  {
    r := buffer + prefix;
    var count := 0;
    for i := 0 to |elements|
      invariant count == i
      invariant r == buffer + prefix + Joined(count, item)
    {
      count := count + 1;
      if count > 1 {
        r := r + ", ";
      }
      r := r + item;
    }
    r := r + postfix;
  }

  /** Joining `n` copies of the placeholder `%c` gives `n` placeholders `c`. */
  lemma {:induction false} JoinedPlaceholders(n: nat, c: char)
    requires c != '%'
    ensures Closed(Joined(n, ['%', c]))
    ensures Placeholders(Joined(n, ['%', c])) == Repeat(c, n)
  {
    PlaceholderAtom(c);
    if n == 1 {
      assert Repeat(c, 1) == [c];
    } else if n > 1 {
      JoinedPlaceholders(n - 1, c);
      var head := Joined(n - 1, ['%', c]);
      LiteralText(", ");
      PlaceholdersAppend(head, ", ");
      PlaceholdersAppend(head + ", ", ['%', c]);
      assert Repeat(c, n - 1) + [c] == Repeat(c, n);
    }
  }
}
