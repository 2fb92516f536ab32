/** Backfilling, rebuilding and querying the lexical index (search_index.py). */
module SearchIndex {
  import opened Basics
  import opened Sorting
  import opened Crypto
  import opened Tokenizer
  import opened Rows
  import opened Inserts
  import opened Simulation
  import opened Lifecycle
  import opened Store

  // ----- backfill and rebuild -----

  predicate HasTerms(terms: set<(nat, Token)>, id: nat) {
    exists p :: p in terms && p.0 == id
  }

  /** backfill_message_terms: index the stored content of every message without term rows. */
  function Backfilled(lex: Lexicon, terms: set<(nat, Token)>, ms: seq<MessageRow>): set<(nat, Token)> {
    terms + set i, p | 0 <= i < |ms| && !HasTerms(terms, ms[i].id) && p in TermRows(lex, PLAIN, ms[i].id, ms[i].content) :: p
  }

  /** rebuild_all_message_terms: drop everything and index the stored content. */
  function Rebuilt(lex: Lexicon, ms: seq<MessageRow>): set<(nat, Token)> {
    RawIndex(lex, PLAIN, ms)
  }

  method RebuildAllMessageTerms(lex: Lexicon, db: Database) returns (count: nat)
    requires OrderedMessages(db.messages)
    modifies db
    ensures db.Contents() == old(db.Contents()).(terms := Rebuilt(lex, old(db.messages))) && count == |db.messages|
  {
    db.terms := {};
    ghost var start := db.Contents();
    count := 0;
    while count < |db.messages|
      invariant 0 <= count <= |db.messages|
      invariant db.Contents() == start.(terms := RawIndex(lex, PLAIN, db.messages[..count]))
    {
      var m := db.messages[count];
      RawIndexGrows(lex, db.messages, count);
      var words := TokenizeForIndex(lex, m.content);
      db.terms := (set p | p in db.terms && p.0 != m.id) + set w | w in words :: (m.id, Word(w));
      assert (set w | w in words :: (m.id, Word(w))) == TermRows(lex, PLAIN, m.id, m.content);
      count := count + 1;
    }
    assert db.messages[..count] == db.messages;
  }

  lemma RawIndexGrows(lex: Lexicon, ms: seq<MessageRow>, i: nat)
    requires OrderedMessages(ms) && i < |ms|
    ensures RawIndex(lex, PLAIN, ms[..i + 1])
         == ReplaceTerms(lex, RawIndex(lex, PLAIN, ms[..i]), PLAIN, ms[i].id, ms[i].content)
  {
  }

  /** Where every message is either unindexed or indexed by its plain words, and no stray rows
      exist, the backfill completes the index. */
  lemma BackfillCompletes(lex: Lexicon, terms: set<(nat, Token)>, ms: seq<MessageRow>)
    requires terms <= RawIndex(lex, PLAIN, ms)
    requires forall i :: 0 <= i < |ms| && HasTerms(terms, ms[i].id) ==> TermRows(lex, PLAIN, ms[i].id, ms[i].content) <= terms
    ensures Backfilled(lex, terms, ms) == RawIndex(lex, PLAIN, ms)
  {
  }

  lemma BackfillEstablishes(lex: Lexicon, db: Tables)
    requires db.terms == {} && db.meta.termsMode == PlainTerms
    ensures Indexed(lex, db.(terms := Backfilled(lex, db.terms, db.messages)), None)
  {
    assert forall i :: 0 <= i < |db.messages| ==> !HasTerms(db.terms, db.messages[i].id);
    BackfillCompletes(lex, db.terms, db.messages);
    RawIsIndex(lex, db.messages);
  }

  lemma SameId(ms: seq<MessageRow>, i: nat, j: nat)
    requires OrderedMessages(ms) && i < |ms| && j < |ms| && ms[i].id == ms[j].id
    ensures i == j
  {
  }

  /** The index holds a word for a message exactly when the message does. */
  lemma InIndexAt(lex: Lexicon, s: Session, ms: seq<MessageRow>, i: nat, w: string)
    requires OrderedMessages(ms) && i < |ms|
    ensures (ms[i].id, MapTerm(s, w)) in IndexOf(lex, s, ms) <==> w in Tokenize(lex, PlainContent(s.ctx, ms[i]))
  {
    InIndex(lex, s, ms, ms[i].id, MapTerm(s, w));
    UnmapMap(s, w);
    if (ms[i].id, MapTerm(s, w)) in IndexOf(lex, s, ms) {
      var k, v :| 0 <= k < |ms| && v in Tokenize(lex, PlainContent(s.ctx, ms[k])) && ms[k].id == ms[i].id && MapTerm(s, w) == MapTerm(s, v);
      UnmapMap(s, v);
      SameId(ms, k, i);
    }
  }

  /** The stored texts have the words of the texts behind them. */
  ghost predicate SameWords(lex: Lexicon, ctx: Option<Context>, ms: seq<MessageRow>) {
    forall i, w :: 0 <= i < |ms| ==> (w in Tokenize(lex, ms[i].content) <==> w in Tokenize(lex, PlainContent(ctx, ms[i])))
  }

  lemma SameWordsSameIndex(lex: Lexicon, ctx: Option<Context>, ms: seq<MessageRow>)
    requires SameWords(lex, ctx, ms)
    ensures IndexOf(lex, PLAIN, ms) == IndexOf(lex, Session(ctx, PlainTerms), ms)
  {
    forall i | 0 <= i < |ms|
      ensures TermRows(lex, PLAIN, ms[i].id, PlainContent(None, ms[i])) == TermRows(lex, Session(ctx, PlainTerms), ms[i].id, PlainContent(ctx, ms[i]))
    {
      assert forall w :: MapTerm(PLAIN, w) == MapTerm(Session(ctx, PlainTerms), w);
    }
  }

  /** Plain words: rebuilding gives the index back exactly when the stored texts, envelopes or not, have the
      words of the texts behind them. */
  lemma RebuildPlainTerms(lex: Lexicon, db: Tables, ctx: Option<Context>)
    requires Consistent(lex, db, ctx) && db.meta.termsMode == PlainTerms
    ensures Rebuilt(lex, db.messages) == db.terms <==> SameWords(lex, ctx, db.messages)
  {
    RawIsIndex(lex, db.messages);
    if Rebuilt(lex, db.messages) == db.terms {
      forall i, w | 0 <= i < |db.messages|
        ensures w in Tokenize(lex, db.messages[i].content) <==> w in Tokenize(lex, PlainContent(ctx, db.messages[i]))
      {
        InIndexAt(lex, PLAIN, db.messages, i, w);
        InIndexAt(lex, Session(ctx, PlainTerms), db.messages, i, w);
      }
    }
    if SameWords(lex, ctx, db.messages) {
      SameWordsSameIndex(lex, ctx, db.messages);
    }
  }

  /** When rebuilding agrees with incremental indexing: with plain words exactly when the stored texts have
      the words of the texts behind them, so always without encryption; with keyed terms exactly when both
      indexes are empty, since it indexes ciphertext with plain words. */
  lemma RebuildExactly(lex: Lexicon, db: Tables, ctx: Option<Context>)
    requires Consistent(lex, db, ctx)
    ensures ctx.None? ==> Rebuilt(lex, db.messages) == db.terms
    ensures db.meta.termsMode == PlainTerms ==> (Rebuilt(lex, db.messages) == db.terms <==> SameWords(lex, ctx, db.messages))
    ensures db.meta.termsMode == KeyedTerms ==>
              (Rebuilt(lex, db.messages) == db.terms <==> db.terms == {} && Rebuilt(lex, db.messages) == {})
  {
    if ctx.None? {
      RawIsIndex(lex, db.messages);
    }
    if db.meta.termsMode == PlainTerms {
      RebuildPlainTerms(lex, db, ctx);
    } else {
      forall p | p in db.terms
        ensures p.1.Keyed?
      {
        InIndex(lex, SessionOf(db, ctx), db.messages, p.0, p.1);
      }
      assert forall p :: p in Rebuilt(lex, db.messages) ==> p.1.Word?;
      assert db.terms !! Rebuilt(lex, db.messages);
      assert Rebuilt(lex, db.messages) == db.terms ==> db.terms * Rebuilt(lex, db.messages) == db.terms;
    }
  }

  // ----- candidates -----

  datatype Scope = Scope(project: string, provider: Option<string>, conversation: Option<string>, role: Option<string>)

  predicate InScope(ns: Namespace, scope: Scope) {
    && ns.project == scope.project
    && (scope.provider.Some? ==> ns.provider == scope.provider.value)
    && (scope.conversation.Some? ==> ns.conversation == scope.conversation.value)
    && (scope.role.Some? ==> ns.role == scope.role.value)
  }

  predicate Embedded(db: Tables, id: nat) {
    exists i :: 0 <= i < |db.embeddings| && db.embeddings[i].key == id
  }

  function Hits(terms: set<(nat, Token)>, id: nat, query: seq<Token>): set<Token> {
    set t | t in query && (id, t) in terms
  }

  /** COUNT(DISTINCT t.term) of the query's terms in one message. */
  function Overlap(terms: set<(nat, Token)>, id: nat, query: seq<Token>): nat {
    |Hits(terms, id, query)|
  }

  /** A message's standing in a query. */
  datatype Hit = Hit(id: nat, overlap: nat)

  /** ORDER BY overlap DESC, message_id ASC. */
  predicate Precedes(a: Hit, b: Hit) {
    a.overlap > b.overlap || (a.overlap == b.overlap && a.id <= b.id)
  }

  lemma PrecedesIsOrder()
    ensures TotalPreorder(Precedes)
  {
  }

  predicate Eligible(db: Tables, scope: Scope, query: seq<Token>, m: MessageRow) {
    InScope(m.ns, scope) && Embedded(db, m.id) && Overlap(db.terms, m.id, query) > 0
  }

  function HitFor(db: Tables, query: seq<Token>, m: MessageRow): Hit {
    Hit(m.id, Overlap(db.terms, m.id, query))
  }

  function Candidates(db: Tables, scope: Scope, query: seq<Token>): seq<Hit> {
    HitsOf(db, query, Filter(db.messages, (m: MessageRow) => Eligible(db, scope, query, m)))
  }

  function HitsOf(db: Tables, query: seq<Token>, ms: seq<MessageRow>): seq<Hit> {
    seq(|ms|, i requires 0 <= i < |ms| => HitFor(db, query, ms[i]))
  }

  /** select_candidate_message_ids, with the overlaps kept. */
  function SelectCandidates(db: Tables, scope: Scope, query: seq<Token>, limit: int): seq<Hit> {
    if query == [] || limit <= 0 then [] else Take(Sort(Candidates(db, scope, query), Precedes), limit)
  }

  /** Every match is a candidate, and nothing else. */
  lemma CandidatesMeaning(db: Tables, scope: Scope, query: seq<Token>, h: Hit)
    ensures h in Candidates(db, scope, query)
       <==> exists i :: 0 <= i < |db.messages| && Eligible(db, scope, query, db.messages[i]) && h == HitFor(db, query, db.messages[i])
  {
    var kept := Filter(db.messages, (m: MessageRow) => Eligible(db, scope, query, m));
    var all := HitsOf(db, query, kept);
    if h in all {
      var k :| 0 <= k < |all| && all[k] == h;
      assert kept[k] in kept;
      var i :| 0 <= i < |db.messages| && db.messages[i] == kept[k];
    }
    if i :| 0 <= i < |db.messages| && Eligible(db, scope, query, db.messages[i]) && h == HitFor(db, query, db.messages[i]) {
      assert db.messages[i] in kept;
      var k :| 0 <= k < |kept| && kept[k] == db.messages[i];
      assert all[k] == h;
    }
  }

  lemma NoQueryNoCandidates(db: Tables, scope: Scope)
    ensures Candidates(db, scope, []) == []
  {
    assert forall id: nat :: Hits(db.terms, id, []) == {};
    FilterNone(db.messages, (m: MessageRow) => Eligible(db, scope, [], m));
  }

  /** The selected messages are exactly the best `limit` of the in-scope, embedded matches: all
      selected are matches, in (overlap desc, id asc) order, and a match is left out only when the
      limit is used up by messages that precede it. */
  lemma SelectionMeaning(db: Tables, scope: Scope, query: seq<Token>, limit: int)
    requires limit > 0
    ensures var hits := SelectCandidates(db, scope, query, limit);
            && |hits| <= limit && Sorted(hits, Precedes)
            && (forall h :: h in hits ==>
                  exists i :: 0 <= i < |db.messages| && Eligible(db, scope, query, db.messages[i]) && h == HitFor(db, query, db.messages[i]))
            && (forall i :: 0 <= i < |db.messages| && Eligible(db, scope, query, db.messages[i]) ==>
                  var h := HitFor(db, query, db.messages[i]);
                  h in hits || (|hits| == limit && forall k :: 0 <= k < |hits| ==> Precedes(hits[k], h)))
  {
    var all, hits := Candidates(db, scope, query), SelectCandidates(db, scope, query, limit);
    PrecedesIsOrder();
    TopOfSorted(all, Precedes, limit);
    if query == [] {
      NoQueryNoCandidates(db, scope);
    }
    assert hits == Take(Sort(all, Precedes), limit);
    forall h | h in hits
      ensures exists i :: 0 <= i < |db.messages| && Eligible(db, scope, query, db.messages[i]) && h == HitFor(db, query, db.messages[i])
    {
      CandidatesMeaning(db, scope, query, h);
    }
    forall i | 0 <= i < |db.messages| && Eligible(db, scope, query, db.messages[i])
      ensures HitFor(db, query, db.messages[i]) in all
    {
      CandidatesMeaning(db, scope, query, HitFor(db, query, db.messages[i]));
    }
  }

  // ----- keyed queries answer as plain ones -----

  function MapQuery(s: Session, words: seq<string>): seq<Token> {
    seq(|words|, i requires 0 <= i < |words| => MapTerm(s, words[i]))
  }

  lemma HitWords(lex: Lexicon, db: Tables, ctx: Option<Context>, id: nat, w: string)
    requires Indexed(lex, db, ctx)
    ensures (id, MapTerm(SessionOf(db, ctx), w)) in db.terms <==> (id, Word(w)) in Plain(db, ctx).terms
  {
    var s := SessionOf(db, ctx);
    UnmapMap(s, w);
    if (id, Word(w)) in Plain(db, ctx).terms {
      var p :| p in db.terms && (id, Word(w)) == (p.0, Word(Unmap(p.1)));
      InIndex(lex, s, db.messages, p.0, p.1);
      var i, v :| 0 <= i < |db.messages| && v in Tokenize(lex, PlainContent(ctx, db.messages[i]))
               && db.messages[i].id == p.0 && p.1 == MapTerm(s, v);
      UnmapMap(s, v);
    }
  }

  lemma OverlapRefines(lex: Lexicon, db: Tables, ctx: Option<Context>, id: nat, words: seq<string>)
    requires Indexed(lex, db, ctx)
    ensures Overlap(db.terms, id, MapQuery(SessionOf(db, ctx), words))
         == Overlap(Plain(db, ctx).terms, id, MapQuery(PLAIN, words))
  {
    var s := SessionOf(db, ctx);
    var a, b := Hits(db.terms, id, MapQuery(s, words)), Hits(Plain(db, ctx).terms, id, MapQuery(PLAIN, words));
    forall t | t in a
      ensures Word(Unmap(t)) in b && t == MapTerm(s, Unmap(t))
    {
      var k :| 0 <= k < |words| && MapQuery(s, words)[k] == t;
      UnmapMap(s, words[k]);
      HitWords(lex, db, ctx, id, words[k]);
      assert MapQuery(PLAIN, words)[k] == Word(words[k]);
    }
    forall u | u in b
      ensures exists t :: t in a && Word(Unmap(t)) == u
    {
      var k :| 0 <= k < |words| && MapQuery(PLAIN, words)[k] == u;
      HitWords(lex, db, ctx, id, words[k]);
      UnmapMap(s, words[k]);
      assert MapQuery(s, words)[k] in a;
    }
    ImageSize(a, b, (t: Token) => Word(Unmap(t)));
  }

  lemma EmbeddedOpens(db: Tables, ctx: Option<Context>, id: nat)
    ensures Embedded(db, id) <==> Embedded(Plain(db, ctx), id)
  {
    if Embedded(db, id) {
      var i :| 0 <= i < |db.embeddings| && db.embeddings[i].key == id;
      assert Plain(db, ctx).embeddings[i].key == id;
    }
  }

  /** The candidates of any query on an encrypted database are those of the plaintext one. */
  lemma SelectCandidatesRefines(lex: Lexicon, db: Tables, ctx: Option<Context>, scope: Scope, words: seq<string>, limit: int)
    requires Indexed(lex, db, ctx)
    ensures SelectCandidates(db, scope, MapQuery(SessionOf(db, ctx), words), limit)
         == SelectCandidates(Plain(db, ctx), scope, MapQuery(PLAIN, words), limit)
  {
    var plain, q, q' := Plain(db, ctx), MapQuery(SessionOf(db, ctx), words), MapQuery(PLAIN, words);
    var f := (m: MessageRow) => Eligible(db, scope, q, m);
    var g := (m: MessageRow) => Eligible(plain, scope, q', m);
    forall i | 0 <= i < |db.messages|
      ensures f(db.messages[i]) == g(plain.messages[i])
    {
      EmbeddedOpens(db, ctx, db.messages[i].id);
      OverlapRefines(lex, db, ctx, db.messages[i].id, words);
    }
    FilterImage(db.messages, f, plain.messages, g, (m: MessageRow) => OpenMessage(ctx, m));
    var a, b := Filter(db.messages, f), Filter(plain.messages, g);
    forall i | 0 <= i < |a|
      ensures HitsOf(db, q, a)[i] == HitsOf(plain, q', b)[i]
    {
      OverlapRefines(lex, db, ctx, a[i].id, words);
      assert b[i] == OpenMessage(ctx, a[i]);
    }
    assert HitsOf(db, q, a) == HitsOf(plain, q', b);
  }
}
