/** Reading a field's tag: the key it maps to and the option flags it sets
    (tagsReader in structmap.go). */
module Tags {

  /** The option words a tag value may carry. */
  const OptionIgnore := "-"
  const OptionOmitEmpty := "omitempty"
  const OptionDive := "dive"
  const OptionWildcard := "wildcard"
  const OptionDotted := "dotted"

  const OptionWords: seq<string> := [OptionIgnore, OptionOmitEmpty, OptionDive, OptionWildcard, OptionDotted]

  /** The flag bits, one per option word, in the order of iota. */
  const FlagIgnore: bv8 := 1
  const FlagOmitEmpty: bv8 := 2
  const FlagDive: bv8 := 4
  const FlagWildcard: bv8 := 8
  const FlagDotted: bv8 := 16

  const AllFlags: bv8 := FlagIgnore | FlagOmitEmpty | FlagDive | FlagWildcard | FlagDotted

  predicate Has(flags: bv8, flag: bv8) {
    flags & flag != 0
  }

  /** The flag a single token sets; an unrecognised token sets none. */
  function OptionFlag(token: string): (f: bv8)
    ensures f != 0 <==> token in OptionWords
    ensures token in OptionWords ==> f in {1, 2, 4, 8, 16}
    ensures f & AllFlags == f
  {
    if token == OptionIgnore then FlagIgnore
    else if token == OptionOmitEmpty then FlagOmitEmpty
    else if token == OptionDive then FlagDive
    else if token == OptionWildcard then FlagWildcard
    else if token == OptionDotted then FlagDotted
    else 0
  }

  /** Distinct option words set distinct, single bits, and any other token
      sets no bit at all. */
  lemma OptionFlagBits(token: string, word: string)
    requires word in OptionWords
    ensures Has(OptionFlag(token), OptionFlag(word)) <==> token == word
    ensures OptionFlag(token) & AllFlags == OptionFlag(token)
  {
  }

  /** The position of the first occurrence of `c` in `s`. */
  function IndexOf(s: string, c: char): (i: nat)
    requires c in s
    ensures i < |s| && s[i] == c && c !in s[..i]
  {
    if s[0] == c then 0 else 1 + IndexOf(s[1..], c)
  }

  /** The tokens joined back with commas: the inverse of Split. */
  function Join(parts: seq<string>): string
    requires |parts| >= 1
  {
    if |parts| == 1 then parts[0] else parts[0] + "," + Join(parts[1..])
  }

  /** strings.Split(s, ","): the maximal comma-free pieces of `s`, in order.
      There is always at least one piece (the empty string splits into [""]). */
  function Split(s: string): (parts: seq<string>)
    ensures |parts| >= 1
    ensures forall i :: 0 <= i < |parts| ==> ',' !in parts[i]
    ensures Join(parts) == s
    decreases |s|
  {
    if ',' !in s then [s]
    else
      var i := IndexOf(s, ',');
      assert s == s[..i] + "," + s[i + 1..];
      [s[..i]] + Split(s[i + 1..])
  }

  /** Splitting undoes joining comma-free tokens. */
  lemma {:induction false} SplitJoin(parts: seq<string>)
    requires |parts| >= 1
    requires forall i :: 0 <= i < |parts| ==> ',' !in parts[i]
    ensures Split(Join(parts)) == parts
    decreases |parts|
  {
    if |parts| > 1 {
      var s := Join(parts);
      var rest := Join(parts[1..]);
      assert s == parts[0] + "," + rest;
      assert s[|parts[0]|] == ',';
      assert s[..|parts[0]|] == parts[0];
      assert IndexOf(s, ',') == |parts[0]|;
      assert s[|parts[0]| + 1..] == rest;
      SplitJoin(parts[1..]);
    }
  }

  /** The first token of a tag value is the part before its first comma, or
      the whole value when it has none. */
  lemma FirstTokenIsPrefix(s: string)
    ensures ',' !in Split(s)[0]
    ensures Split(s)[0] == s || (|Split(s)[0]| < |s| && s[..|Split(s)[0]| + 1] == Split(s)[0] + ",")
  {
    var parts := Split(s);
    if |parts| > 1 {
      assert s == parts[0] + "," + Join(parts[1..]);
      assert s[..|parts[0]| + 1] == parts[0] + ",";
    }
  }

  /** The OR of the flags of all tokens, taken left to right. */
  function FlagsOf(tokens: seq<string>): (f: bv8)
    ensures tokens == [] ==> f == 0
    ensures f & AllFlags == f
  {
    if tokens == [] then 0 else FlagsOf(tokens[..|tokens| - 1]) | OptionFlag(tokens[|tokens| - 1])
  }

  /** A flag is set exactly when its option word is one of the tokens, and no
      bit outside the five flags is ever set. */
  lemma {:induction false} FlagsOfTokens(tokens: seq<string>, word: string)
    requires word in OptionWords
    ensures Has(FlagsOf(tokens), OptionFlag(word)) <==> word in tokens
    ensures FlagsOf(tokens) & AllFlags == FlagsOf(tokens)
  {
    if tokens != [] {
      var init, last := tokens[..|tokens| - 1], tokens[|tokens| - 1];
      assert tokens == init + [last];
      FlagsOfTokens(init, word);
      OptionFlagBits(last, word);
    }
  }

  /** What a tag says about a field: the key it maps to and its flags. */
  datatype Directive = Directive(key: string, flags: bv8)

  /** The directive of a field whose tags are `tags`, under namespace `tag`. */
  function ReadTag(tags: map<string, string>, tag: string): (d: Directive)
    ensures tag !in tags ==> d == Directive("", FlagIgnore)
    ensures tag in tags ==> d.key == Split(tags[tag])[0]
    ensures tag in tags ==> forall w :: w in OptionWords ==> (Has(d.flags, OptionFlag(w)) <==> w in Split(tags[tag]))
    ensures d.flags & AllFlags == d.flags
  {
    if tag !in tags then Directive("", FlagIgnore)
    else
      var tokens := Split(tags[tag]);
      assert forall w :: w in OptionWords ==> (Has(FlagsOf(tokens), OptionFlag(w)) <==> w in tokens) by {
        forall w | w in OptionWords ensures Has(FlagsOf(tokens), OptionFlag(w)) <==> w in tokens {
          FlagsOfTokens(tokens, w);
        }
      }
      FlagsOfTokens(tokens, OptionIgnore);
      Directive(tokens[0], FlagsOf(tokens))
  }

  /** tagsReader: looks the namespace up, splits the tag value on commas and
      ORs the flag of every token, the key token included, into the result. */
  method TagsReader(tags: map<string, string>, tag: string) returns (key: string, flag: bv8)
    ensures Directive(key, flag) == ReadTag(tags, tag)
  {
    flag, key := 0, "";
    if tag !in tags {
      flag := flag | FlagIgnore;
      return;
    }
    var opts := Split(tags[tag]);
    key := opts[0];
    for i := 0 to |opts|
      invariant flag == FlagsOf(opts[..i])
    {
      assert opts[..i + 1][..i] == opts[..i];
      if opts[i] == OptionIgnore {
        flag := flag | FlagIgnore;
      } else if opts[i] == OptionOmitEmpty {
        flag := flag | FlagOmitEmpty;
      } else if opts[i] == OptionDive {
        flag := flag | FlagDive;
      } else if opts[i] == OptionWildcard {
        flag := flag | FlagWildcard;
      } else if opts[i] == OptionDotted {
        flag := flag | FlagDotted;
      }
    }
    assert opts[..|opts|] == opts;
  }
}
