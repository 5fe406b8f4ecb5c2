/** Splitting a category-group name such as "cc,gpu" into its category names.
    The tokenizer used by the export treats ',' as a delimiter and never
    returns empty tokens, so "a,,b" and ",a," hold the same categories as "a,b". */
module CategoryTokens {

  const Separator: char := ','

  /** The pieces between separators, empty ones included, in order. */
  function Split(s: string): (parts: seq<string>)
    ensures |parts| >= 1
    ensures forall p :: p in parts ==> Separator !in p
    decreases |s|
  {
    if |s| == 0 then [""]
    else
      var rest := Split(s[1..]);
      if s[0] == Separator then [""] + rest
      else [[s[0]] + rest[0]] + rest[1..]
  }

  /** The pieces put back together with a separator between neighbours. */
  function Join(parts: seq<string>): string
    requires |parts| >= 1
  {
    if |parts| == 1 then parts[0] else parts[0] + [Separator] + Join(parts[1..])
  }

  /** Splitting loses nothing: joining the pieces gives the name back. */
  lemma {:induction false} JoinSplit(s: string)
    ensures Join(Split(s)) == s
    decreases |s|
  {
    if |s| > 0 {
      var rest := Split(s[1..]);
      JoinSplit(s[1..]);
      if s[0] == Separator {
        assert Split(s) == [""] + rest;
        assert Join(Split(s)) == "" + [Separator] + Join(rest);
        assert s == [s[0]] + s[1..];
      } else {
        var parts := Split(s);
        assert parts == [[s[0]] + rest[0]] + rest[1..];
        if |rest| == 1 {
          assert Join(parts) == [s[0]] + rest[0];
        } else {
          assert parts[1..] == rest[1..];
          assert Join(rest) == rest[0] + [Separator] + Join(rest[1..]);
          assert Join(parts) == [s[0]] + rest[0] + [Separator] + Join(rest[1..]);
        }
        assert s == [s[0]] + s[1..];
      }
    }
  }

  /** A separator cuts a name into the pieces of its two sides. */
  lemma {:induction false} SplitAround(a: string, b: string)
    ensures Split(a + [Separator] + b) == Split(a) + Split(b)
    decreases |a|
  {
    var s := a + [Separator] + b;
    if |a| == 0 {
      assert s[1..] == b;
    } else {
      assert s[1..] == a[1..] + [Separator] + b;
      SplitAround(a[1..], b);
    }
  }

  /** The non-empty pieces, in order. */
  function NonEmpty(parts: seq<string>): (tokens: seq<string>)
    ensures forall t :: t in tokens ==> t != "" && t in parts
    ensures forall p :: p in parts && p != "" ==> p in tokens
  {
    if parts == [] then []
    else if parts[0] == "" then NonEmpty(parts[1..])
    else [parts[0]] + NonEmpty(parts[1..])
  }

  lemma {:induction false} NonEmptyAppend(p: seq<string>, q: seq<string>)
    ensures NonEmpty(p + q) == NonEmpty(p) + NonEmpty(q)
  {
    if p != [] {
      assert (p + q)[1..] == p[1..] + q;
      NonEmptyAppend(p[1..], q);
    } else {
      assert p + q == q;
    }
  }

  /** The tokens a category-group name is made of: the non-empty pieces
      between commas, in order. */
  function Tokens(categoryGroupName: string): (tokens: seq<string>)
    ensures forall t :: t in tokens ==> t != "" && Separator !in t
  {
    NonEmpty(Split(categoryGroupName))
  }

  /** A name without a comma is a single token. */
  lemma {:induction false} TokensOfCategoryName(name: string)
    requires name != "" && Separator !in name
    ensures Tokens(name) == [name]
  {
    SplitOfCategoryName(name);
    assert NonEmpty([name]) == [name] + NonEmpty([]) by {
      assert [name][1..] == [];
    }
  }

  lemma {:induction false} SplitOfCategoryName(name: string)
    requires Separator !in name
    ensures Split(name) == [name]
    decreases |name|
  {
    if |name| > 0 {
      assert Separator !in name[1..] by {
        forall k | 0 <= k < |name[1..]| ensures name[1..][k] != Separator {
          assert name[1..][k] == name[k + 1];
        }
      }
      SplitOfCategoryName(name[1..]);
      assert name == [name[0]] + name[1..];
    }
  }

  /** The tokens of "a,b" are those of a followed by those of b. */
  lemma TokensAround(a: string, b: string)
    ensures Tokens(a + [Separator] + b) == Tokens(a) + Tokens(b)
  {
    SplitAround(a, b);
    NonEmptyAppend(Split(a), Split(b));
  }
}
