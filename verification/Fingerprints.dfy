/** When a content fingerprint determines the namespace it was taken in (crypto.py): the fields are joined
    with '|' and not escaped. */
module Fingerprints {
  import opened Basics
  import opened Crypto

  const BAR := Ch('|')

  /** Bars of a text before its first glyph that is not a character; names hold characters only. */
  function Bars(t: Text): nat {
    if t == [] || !t[0].Ch? then 0 else (if t[0] == BAR then 1 else 0) + Bars(t[1..])
  }

  /** A bar that could as well end a role. */
  predicate BarInReach(t: Text) {
    exists k :: 0 <= k < |t| && t[k] == BAR && Plainly(t, k)
  }

  predicate Plainly(t: Text, n: nat)
    requires n <= |t|
  {
    forall i :: 0 <= i < n ==> t[i].Ch?
  }

  lemma {:induction false} BarsCount(t: Text)
    ensures Bars(t) > 0 <==> BarInReach(t)
  {
    if t != [] && t[0].Ch? {
      BarsCount(t[1..]);
      if t[0] == BAR {
        assert Plainly(t, 0);
      } else {
        if k :| 0 <= k < |t| && t[k] == BAR && Plainly(t, k) {
          assert t[1..][k - 1] == BAR && Plainly(t[1..], k - 1);
        }
        if k :| 0 <= k < |t[1..]| && t[1..][k] == BAR && Plainly(t[1..], k) {
          assert t[k + 1] == BAR && Plainly(t, k + 1);
        }
      }
    }
  }

  lemma {:induction false} BarsOfName(s: string)
    ensures Bars(Lift(s)) > 0 <==> '|' in s
  {
    if s != [] {
      BarsOfName(s[1..]);
      assert Lift(s)[1..] == Lift(s[1..]);
    }
  }

  lemma {:induction false} BarsAdd(s: string, t: Text)
    ensures Bars(Lift(s) + t) == Bars(Lift(s)) + Bars(t)
  {
    if s == [] {
      assert Lift(s) + t == t;
    } else {
      BarsAdd(s[1..], t);
      assert Lift(s)[1..] == Lift(s[1..]);
      assert (Lift(s) + t)[1..] == Lift(s[1..]) + t;
    }
  }

  /** A name, the bar after it, and the rest. */
  function Joined(name: string, rest: Text): Text {
    Lift(name) + [BAR] + rest
  }

  lemma BarsOfJoined(name: string, rest: Text)
    ensures Bars(Joined(name, rest)) == Bars(Lift(name)) + 1 + Bars(rest)
  {
    assert Joined(name, rest) == Lift(name) + ([BAR] + rest);
    BarsAdd(name, [BAR] + rest);
    assert ([BAR] + rest)[1..] == rest;
  }

  function JoinedMessage(ns: Namespace, content: Text): Text {
    Joined(ns.project, Joined(ns.provider, Joined(ns.conversation, Joined(ns.role, content))))
  }

  lemma LiftBar(a: string, rest: string, content: Text)
    ensures Lift(a + "|" + rest) + content == Joined(a, Lift(rest) + content)
  {
  }

  lemma MessageIsJoined(ns: Namespace, content: Text)
    ensures FingerprintMessage(ns, content) == JoinedMessage(ns, content)
  {
    var p, r, c, u := ns.project, ns.provider, ns.conversation, ns.role;
    LiftBar(p, r + "|" + (c + "|" + (u + "|" + "")), content);
    LiftBar(r, c + "|" + (u + "|" + ""), content);
    LiftBar(c, u + "|" + "", content);
    LiftBar(u, "", content);
    assert Lift("") + content == content;
    assert p + "|" + r + "|" + c + "|" + u + "|" == p + "|" + (r + "|" + (c + "|" + (u + "|" + "")));
  }

  function NameBars(ns: Namespace): nat {
    Bars(Lift(ns.project)) + Bars(Lift(ns.provider)) + Bars(Lift(ns.conversation)) + Bars(Lift(ns.role))
  }

  function TotalBars(ns: Namespace, content: Text): nat {
    NameBars(ns) + Bars(content)
  }

  lemma BarsOfMessage(ns: Namespace, content: Text)
    ensures Bars(JoinedMessage(ns, content)) == TotalBars(ns, content) + 4
  {
    BarsOfJoined(ns.role, content);
    BarsOfJoined(ns.conversation, Joined(ns.role, content));
    BarsOfJoined(ns.provider, Joined(ns.conversation, Joined(ns.role, content)));
    BarsOfJoined(ns.project, Joined(ns.provider, Joined(ns.conversation, Joined(ns.role, content))));
  }

  lemma BarFreeName(s: string)
    requires Bars(Lift(s)) == 0
    ensures BAR !in Lift(s)
  {
    BarsOfName(s);
  }

  lemma JoinedInjective(a: string, b: string, x: Text, y: Text)
    requires Bars(Lift(a)) == 0 && Bars(Lift(b)) == 0 && Joined(a, x) == Joined(b, y)
    ensures a == b && x == y
  {
    BarFreeName(a);
    BarFreeName(b);
    DelimitedInjective(Lift(a), Lift(b), BAR, x, y);
    LiftInjective(a, b);
  }

  /** Names without bars can be read back from the joined message. */
  lemma FieldsInjective(a: Namespace, x: Text, b: Namespace, y: Text)
    requires JoinedMessage(a, x) == JoinedMessage(b, y) && NameBars(a) == 0 && NameBars(b) == 0
    ensures a == b && x == y
  {
    var ax, bx := Joined(a.role, x), Joined(b.role, y);
    JoinedInjective(a.project, b.project, Joined(a.provider, Joined(a.conversation, ax)), Joined(b.provider, Joined(b.conversation, bx)));
    JoinedInjective(a.provider, b.provider, Joined(a.conversation, ax), Joined(b.conversation, bx));
    JoinedInjective(a.conversation, b.conversation, ax, bx);
    JoinedInjective(a.role, b.role, x, y);
  }

  lemma NoBarsNoTwin(a: Namespace, x: Text, b: Namespace, y: Text)
    requires JoinedMessage(a, x) == JoinedMessage(b, y) && TotalBars(a, x) == 0
    ensures a == b && x == y
  {
    BarsOfMessage(a, x);
    BarsOfMessage(b, y);
    FieldsInjective(a, x, b, y);
  }

  /** Somebody else's message in another namespace, or other content, with the same fingerprint. */
  predicate Twins(ctx: Context, a: Namespace, x: Text, b: Namespace, y: Text) {
    (a != b || x != y) && Fingerprint(ctx, a, x) == Fingerprint(ctx, b, y)
  }

  predicate HasBar(ns: Namespace, content: Text) {
    '|' in ns.project || '|' in ns.provider || '|' in ns.conversation || '|' in ns.role || BarInReach(content)
  }

  lemma HasBarCounts(ns: Namespace, content: Text)
    ensures HasBar(ns, content) <==> TotalBars(ns, content) > 0
  {
    BarsOfName(ns.project);
    BarsOfName(ns.provider);
    BarsOfName(ns.conversation);
    BarsOfName(ns.role);
    BarsCount(content);
  }

  lemma SplitAtBar(s: string) returns (a: string, b: string)
    requires '|' in s
    ensures s == a + "|" + b
  {
    var k :| 0 <= k < |s| && s[k] == '|';
    a, b := s[..k], s[k + 1..];
  }

  /** The joining bar can be the one inside a name, if the name and its neighbour are cut elsewhere. */
  lemma Recut(a: string, b: string, c: string, rest: Text)
    ensures Joined(a + "|" + b, Joined(c, rest)) == Joined(a, Joined(b + "|" + c, rest))
  {
    assert Joined(a + "|" + b, Joined(c, rest)) == Lift(a) + [BAR] + Lift(b) + [BAR] + Lift(c) + [BAR] + rest;
    assert Joined(a, Joined(b + "|" + c, rest)) == Lift(a) + [BAR] + Lift(b) + [BAR] + Lift(c) + [BAR] + rest;
  }

  /** A bar in any of the four names can be taken for one of the joining bars. */
  lemma BarInNameHasTwin(ns: Namespace, content: Text) returns (twin: Namespace)
    requires '|' in ns.project || '|' in ns.provider || '|' in ns.conversation || '|' in ns.role
    ensures twin != ns && JoinedMessage(twin, content) == JoinedMessage(ns, content)
  {
    if '|' in ns.project {
      var a, b := SplitAtBar(ns.project);
      Recut(a, b, ns.provider, Joined(ns.conversation, Joined(ns.role, content)));
      twin := ns.(project := a, provider := b + "|" + ns.provider);
      assert |twin.project| < |ns.project|;
    } else if '|' in ns.provider {
      var a, b := SplitAtBar(ns.provider);
      Recut(a, b, ns.conversation, Joined(ns.role, content));
      twin := ns.(provider := a, conversation := b + "|" + ns.conversation);
      assert |twin.provider| < |ns.provider|;
    } else if '|' in ns.conversation {
      var a, b := SplitAtBar(ns.conversation);
      Recut(a, b, ns.role, content);
      twin := ns.(conversation := a, role := b + "|" + ns.role);
      assert |twin.conversation| < |ns.conversation|;
    } else {
      var a, b := SplitAtBar(ns.role);
      Recut(ns.conversation, a, b, content);
      twin := ns.(conversation := ns.conversation + "|" + a, role := b);
      assert |twin.role| < |ns.role|;
    }
  }

  /** A bar in the content can be taken for the one after the role. */
  lemma BarInContentHasTwin(ns: Namespace, content: Text) returns (twin: Namespace, rest: Text)
    requires BarInReach(content)
    ensures rest != content && JoinedMessage(twin, rest) == JoinedMessage(ns, content)
  {
    var k :| 0 <= k < |content| && content[k] == BAR && Plainly(content, k);
    var name: string := seq(k, i requires 0 <= i < k => content[i].c);
    rest := content[k + 1..];
    assert Lift(name) == content[..k];
    assert content == Joined(name, rest);
    Recut(ns.conversation, ns.role, name, rest);
    twin := ns.(conversation := ns.conversation + "|" + ns.role, role := name);
    assert |rest| < |content|;
  }

  /** A fingerprint determines its namespace and content exactly when no name holds a bar and neither does
      the content: then and only then there is no other message with the same fingerprint. */
  lemma FingerprintTwinExactly(ctx: Context, ns: Namespace, content: Text)
    ensures (exists other, text :: Twins(ctx, ns, content, other, text)) <==> HasBar(ns, content)
  {
    MessageIsJoined(ns, content);
    HasBarCounts(ns, content);
    if HasBar(ns, content) {
      if BarInReach(content) {
        var twin, rest := BarInContentHasTwin(ns, content);
        MessageIsJoined(twin, rest);
        assert Twins(ctx, ns, content, twin, rest);
      } else {
        var twin := BarInNameHasTwin(ns, content);
        MessageIsJoined(twin, content);
        assert Twins(ctx, ns, content, twin, content);
      }
    }
    if other, text :| Twins(ctx, ns, content, other, text) {
      MessageIsJoined(other, text);
      if TotalBars(ns, content) == 0 {
        NoBarsNoTwin(ns, content, other, text);
      }
    }
  }

  /** For a content of characters only, that is a bar anywhere in it. */
  lemma FingerprintTwinOfString(ctx: Context, ns: Namespace, content: string)
    ensures (exists other, text :: Twins(ctx, ns, Lift(content), other, text))
       <==> '|' in ns.project || '|' in ns.provider || '|' in ns.conversation || '|' in ns.role || '|' in content
  {
    FingerprintTwinExactly(ctx, ns, Lift(content));
    BarsCount(Lift(content));
    BarsOfName(content);
  }

  predicate BarFree(ns: Namespace) {
    '|' !in ns.project && '|' !in ns.provider && '|' !in ns.conversation && '|' !in ns.role
  }

  /** Two namespaces without bars are told apart, whatever the contents. */
  lemma BarFreeNamespaces(ctx: Context, a: Namespace, x: Text, b: Namespace, y: Text)
    requires BarFree(a) && BarFree(b) && Fingerprint(ctx, a, x) == Fingerprint(ctx, b, y)
    ensures a == b && x == y
  {
    MessageIsJoined(a, x);
    MessageIsJoined(b, y);
    BarsOfName(a.project);
    BarsOfName(a.provider);
    BarsOfName(a.conversation);
    BarsOfName(a.role);
    BarsOfName(b.project);
    BarsOfName(b.provider);
    BarsOfName(b.conversation);
    BarsOfName(b.role);
    FieldsInjective(a, x, b, y);
  }
}
