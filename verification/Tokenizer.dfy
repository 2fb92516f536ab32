/** The tokenizer of the lexical index (search_index.py).

    Splitting a text into casefolded words is left to the lexicon, as is the stop-word list:
    everything below holds for every lexicon. */
module Tokenizer {
  import opened Crypto

  const MIN_TERM_LENGTH := 2
  const MAX_TERM_LENGTH := 64
  const MAX_TERMS_PER_MESSAGE := 256

  datatype Lexicon = Lexicon(words: Text -> seq<string>, stop: set<string>)

  predicate KeepsWord(lex: Lexicon, w: string) {
    MIN_TERM_LENGTH <= |w| <= MAX_TERM_LENGTH && w !in lex.stop
  }

  /** The terms kept from a list of words. */
  function Terms(lex: Lexicon, words: seq<string>): seq<string> {
    if words == [] then [] else
      var kept := Terms(lex, words[..|words| - 1]);
      var w := words[|words| - 1];
      if |kept| < MAX_TERMS_PER_MESSAGE && KeepsWord(lex, w) && w !in kept then kept + [w] else kept
  }

  function Tokenize(lex: Lexicon, text: Text): seq<string> {
    if text == [] then [] else Terms(lex, lex.words(text))
  }

  /** Position of the first occurrence of w. */
  function FirstSeen(words: seq<string>, w: string): nat {
    if words == [] || words[0] == w then 0 else 1 + FirstSeen(words[1..], w)
  }

  lemma {:induction false} FirstSeenPrefix(p: seq<string>, s: seq<string>, w: string)
    ensures w in p ==> FirstSeen(p + s, w) == FirstSeen(p, w) < |p|
    ensures w !in p ==> FirstSeen(p + s, w) == |p| + FirstSeen(s, w)
  {
    if p == [] {
      assert p + s == s;
    } else {
      assert (p + s)[1..] == p[1..] + s;
      FirstSeenPrefix(p[1..], s, w);
    }
  }

  /** What the tokenizer promises: distinct words of the text with 2 to 64 characters that are no stop words, in
      first-seen order, at most 256 of them, and all of them unless the bound was reached. */
  lemma {:induction false} TermsMeaning(lex: Lexicon, words: seq<string>)
    ensures var t := Terms(lex, words);
            && |t| <= 256
            && (forall i :: 0 <= i < |t| ==> t[i] in words && 2 <= |t[i]| <= 64 && t[i] !in lex.stop)
            && (forall i, j :: 0 <= i < j < |t| ==> FirstSeen(words, t[i]) < FirstSeen(words, t[j]))
            && (|t| < 256 ==> forall w :: w in words && 2 <= |w| <= 64 && w !in lex.stop ==> w in t)
  {
    if words != [] {
      var p, w := words[..|words| - 1], words[|words| - 1];
      assert words == p + [w];
      TermsMeaning(lex, p);
      var t := Terms(lex, words);
      forall i, j | 0 <= i < j < |t|
        ensures FirstSeen(words, t[i]) < FirstSeen(words, t[j])
      {
        FirstSeenPrefix(p, [w], t[i]);
        FirstSeenPrefix(p, [w], t[j]);
      }
    }
  }

  /** Once the bound is reached the remaining words change nothing, so the loop may stop. */
  lemma {:induction false} TermsFull(lex: Lexicon, words: seq<string>, n: nat)
    requires n <= |words| && |Terms(lex, words[..n])| >= MAX_TERMS_PER_MESSAGE
    ensures Terms(lex, words) == Terms(lex, words[..n])
    decreases |words| - n
  {
    if n < |words| {
      assert words[..n + 1][..n] == words[..n];
      TermsFull(lex, words, n + 1);
    } else {
      assert words[..n] == words;
    }
  }

  method TokenizeForIndex(lex: Lexicon, text: Text) returns (out: seq<string>)
    ensures out == Tokenize(lex, text)
  {
    if text == [] {
      return [];
    }
    var words := lex.words(text);
    var seen: set<string> := {};
    out := [];
    var i := 0;
    while i < |words|
      invariant 0 <= i <= |words|
      invariant out == Terms(lex, words[..i])
      invariant |out| < MAX_TERMS_PER_MESSAGE
      invariant forall w :: w in seen <==> w in out
    {
      var raw := words[i];
      assert words[..i + 1][..i] == words[..i];
      i := i + 1;
      if |raw| < MIN_TERM_LENGTH || |raw| > MAX_TERM_LENGTH {
        continue;
      }
      if raw in lex.stop {
        continue;
      }
      if raw in seen {
        continue;
      }
      seen := seen + {raw};
      out := out + [raw];
      if |out| >= MAX_TERMS_PER_MESSAGE {
        TermsFull(lex, words, i);
        return;
      }
    }
    assert words[..i] == words;
  }
}
