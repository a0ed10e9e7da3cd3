/**
 The tree of cancellation tokens, on the heap. `tokens` is the set of all tokens of a
 program; a token knows its parent and its attached children.
 */
module CancellationTree {

  const DEFAULT_REASON := "cancelled"

  class Token {
    var cancelled: bool
    var reason: string
    var parent: Token?
    var children: set<Token>
    /** How many tokens were above this one when it was created. */
    ghost const depth: nat

    constructor Root()
      ensures !cancelled && reason == DEFAULT_REASON && parent == null && children == {} && depth == 0
    {
      cancelled, reason, parent, children := false, DEFAULT_REASON, null, {};
      depth := 0;
    }

    /** A child registers with its parent and inherits a cancellation. */
    constructor Child(p: Token, ghost tokens: set<Token>)
      requires p in tokens && Shape(tokens) && Propagated(tokens, {})
      modifies p`children
      ensures parent == p && children == {} && depth == p.depth + 1 && p.children == old(p.children) + {this}
      ensures cancelled == p.cancelled && reason == if p.cancelled then p.reason else DEFAULT_REASON
      ensures Shape(tokens + {this}) && Propagated(tokens + {this}, {})
    {
      cancelled, reason, parent, children := false, DEFAULT_REASON, p, {};
      depth := p.depth + 1;
      new;
      p.children := p.children + {this};
      if p.cancelled {
        cancelled, reason := true, p.reason;
      }
      assert forall t, c :: t in tokens && c in t.children ==> c == this || c in old(t.children);
      assert Shape(tokens + {this});
    }

    method CreateChild(ghost tokens: set<Token>) returns (c: Token)
      requires this in tokens && Shape(tokens) && Propagated(tokens, {})
      modifies this`children
      ensures fresh(c) && c.parent == this && c.children == {} && children == old(children) + {c}
      ensures c.cancelled == cancelled && c.reason == if cancelled then reason else DEFAULT_REASON
      ensures Shape(tokens + {c}) && Propagated(tokens + {c}, {})
    {
      c := new Token.Child(this, tokens);
    }

    /** The first cancellation of a token reaches exactly the tokens attached below it
        and keeps every reason given before. `busy` are the tokens above this one whose
        own cancellation is still going through their children. */
    method Cancel(why: string, ghost tokens: set<Token>, ghost busy: set<Token>)
      requires this in tokens && Shape(tokens) && Propagated(tokens, busy)
      requires forall b :: b in busy ==> b.depth < depth
      modifies tokens`cancelled, tokens`reason
      ensures Propagated(tokens, busy)
      ensures forall t :: t in tokens ==> (t.cancelled <==> old(t.cancelled) || Under(t, this, tokens))
      ensures forall t :: t in tokens ==>
        t.reason == if !old(t.cancelled) && Under(t, this, tokens) then why else old(t.reason)
      decreases Alive(tokens), 0
    {
      if cancelled {
        SubtreeCancelled(tokens, busy, this);
        return;
      }
      assert this in old(Alive(tokens));
      reason, cancelled := why, true;
      CancelChildren(why, tokens, busy);
      UnderChildren(tokens, this);
    }

    method CancelChildren(why: string, ghost tokens: set<Token>, ghost busy: set<Token>)
      requires this in tokens && Shape(tokens) && Propagated(tokens, busy + {this})
      requires forall b :: b in busy ==> b.depth < depth
      modifies tokens`cancelled, tokens`reason
      ensures Propagated(tokens, busy + {this})
      ensures forall t :: t in tokens ==> (t.cancelled <==> old(t.cancelled) || UnderSome(t, children, tokens))
      ensures forall t :: t in tokens ==>
        t.reason == if !old(t.cancelled) && UnderSome(t, children, tokens) then why else old(t.reason)
      decreases Alive(tokens), 1
    {
      var remaining := children;
      ghost var done: set<Token> := {};
      while remaining != {}
        invariant done + remaining == children && Propagated(tokens, busy + {this})
        invariant forall t :: t in tokens ==> (t.cancelled <==> old(t.cancelled) || UnderSome(t, done, tokens))
        invariant forall t :: t in tokens ==>
          t.reason == if !old(t.cancelled) && UnderSome(t, done, tokens) then why else old(t.reason)
        decreases remaining
      {
        var c :| c in remaining;
        assert c in tokens && c.parent == this && c.depth == depth + 1;
        AliveShrinks(tokens);
        c.Cancel(why, tokens, busy + {this});
        UnderOneMore(tokens, done, c);
        remaining, done := remaining - {c}, done + {c};
      }
    }

    method Detach(ghost tokens: set<Token>)
      requires this in tokens && Shape(tokens) && Propagated(tokens, {})
      modifies this`parent, tokens`children
      ensures parent == null && Shape(tokens) && Propagated(tokens, {})
      ensures forall t :: t in tokens ==>
        t.children == if t == old(parent) then old(t.children) - {this} else old(t.children)
    {
      if parent == null {
        return;
      }
      parent.children := parent.children - {this};
      parent := null;
    }
  }

  // ---------- The tree ----------

  /** Parent and child links agree, stay among the tokens and go one level down. */
  ghost predicate Shape(tokens: set<Token>)
    reads tokens`parent, tokens`children
  {
    && (forall t :: t in tokens && t.parent != null ==>
         t.parent in tokens && t in t.parent.children && t.depth == t.parent.depth + 1)
    && forall t, c :: t in tokens && c in t.children ==> c in tokens && c.parent == t
  }

  /** The children of a cancelled token are cancelled, unless it is busy cancelling them. */
  ghost predicate Propagated(tokens: set<Token>, busy: set<Token>)
    reads tokens`children, tokens`cancelled
  {
    forall t, c :: t in tokens && t !in busy && t.cancelled && c in t.children && c in tokens ==> c.cancelled
  }

  ghost function Alive(tokens: set<Token>): set<Token>
    reads tokens`cancelled
  {
    set t | t in tokens && !t.cancelled
  }

  /** `t` is `top` or attached below it. */
  ghost predicate Under(t: Token, top: Token, tokens: set<Token>)
    requires t in tokens && Shape(tokens)
    reads tokens`parent, tokens`children
    decreases t.depth
  {
    t == top || (t.parent != null && Under(t.parent, top, tokens))
  }

  ghost predicate UnderSome(t: Token, tops: set<Token>, tokens: set<Token>)
    requires t in tokens && Shape(tokens)
    reads tokens`parent, tokens`children
  {
    exists top :: top in tops && Under(t, top, tokens)
  }

  twostate lemma AliveShrinks(tokens: set<Token>)
    requires forall t :: t in tokens ==> old(t.cancelled) ==> t.cancelled
    ensures Alive(tokens) <= old(Alive(tokens))
  {}

  lemma UnderOneMore(tokens: set<Token>, tops: set<Token>, top: Token)
    requires Shape(tokens)
    ensures forall t :: t in tokens ==>
      (UnderSome(t, tops + {top}, tokens) <==> UnderSome(t, tops, tokens) || Under(t, top, tokens))
  {
    forall t | t in tokens
      ensures UnderSome(t, tops + {top}, tokens) <==> UnderSome(t, tops, tokens) || Under(t, top, tokens)
    {
      if Under(t, top, tokens) {
        assert top in tops + {top};
      }
    }
  }

  lemma {:induction false} UnderChild(tokens: set<Token>, top: Token, t: Token)
    requires Shape(tokens) && t in tokens && top in tokens
    ensures Under(t, top, tokens) <==> t == top || UnderSome(t, top.children, tokens)
    decreases t.depth
  {
    if t != top {
      if t.parent != null {
        UnderChild(tokens, top, t.parent);
      }
      if Under(t, top, tokens) {
        if t.parent == top {
          assert t in top.children && Under(t, t, tokens);
        } else {
          var c :| c in top.children && Under(t.parent, c, tokens);
          assert Under(t, c, tokens);
        }
      }
      if UnderSome(t, top.children, tokens) {
        var c :| c in top.children && Under(t, c, tokens);
        UnderThrough(tokens, t, c, top);
      }
    }
  }

  lemma UnderChildren(tokens: set<Token>, top: Token)
    requires Shape(tokens) && top in tokens
    ensures forall t :: t in tokens ==> (Under(t, top, tokens) <==> t == top || UnderSome(t, top.children, tokens))
    ensures forall c :: c in top.children ==> UnderSome(c, top.children, tokens)
  {
    forall t | t in tokens ensures Under(t, top, tokens) <==> t == top || UnderSome(t, top.children, tokens) {
      UnderChild(tokens, top, t);
    }
    forall c | c in top.children ensures UnderSome(c, top.children, tokens) {
      assert Under(c, c, tokens);
    }
  }

  /** Below is transitive. */
  lemma {:induction false} UnderThrough(tokens: set<Token>, t: Token, mid: Token, top: Token)
    requires Shape(tokens) && t in tokens && mid in tokens
    requires Under(t, mid, tokens) && (mid.parent == top || Under(mid, top, tokens))
    ensures Under(t, top, tokens)
    decreases t.depth
  {
    if t != mid {
      UnderThrough(tokens, t.parent, mid, top);
    }
  }

  lemma {:induction false} UnderDeeper(tokens: set<Token>, t: Token, top: Token)
    requires Shape(tokens) && t in tokens && Under(t, top, tokens)
    ensures top in tokens && (t == top || top.depth < t.depth)
    decreases t.depth
  {
    if t != top {
      UnderDeeper(tokens, t.parent, top);
    }
  }

  /** A token that was already cancelled has nothing uncancelled below it. */
  lemma SubtreeCancelled(tokens: set<Token>, busy: set<Token>, top: Token)
    requires Shape(tokens) && Propagated(tokens, busy) && top in tokens && top.cancelled
    requires forall b :: b in busy ==> b.depth < top.depth
    ensures forall t :: t in tokens && Under(t, top, tokens) ==> t.cancelled
  {
    forall t | t in tokens && Under(t, top, tokens) ensures t.cancelled {
      BelowCancelled(tokens, busy, t, top);
    }
  }

  lemma {:induction false} BelowCancelled(tokens: set<Token>, busy: set<Token>, t: Token, top: Token)
    requires Shape(tokens) && Propagated(tokens, busy) && top in tokens && top.cancelled
    requires forall b :: b in busy ==> b.depth < top.depth
    requires t in tokens && Under(t, top, tokens)
    ensures t.cancelled
    decreases t.depth
  {
    if t != top {
      BelowCancelled(tokens, busy, t.parent, top);
      UnderDeeper(tokens, t.parent, top);
    }
  }

  /** In every state the operations reach, whatever is attached below a cancelled token
      is cancelled. */
  lemma DescendantsCancelled(tokens: set<Token>, top: Token, t: Token)
    requires Shape(tokens) && Propagated(tokens, {}) && top in tokens && t in tokens
    requires top.cancelled && Under(t, top, tokens)
    ensures t.cancelled
  {
    BelowCancelled(tokens, {}, t, top);
  }

  /** It is a tree: two tokens that share a descendant lie on one path, so a cancellation
      never reaches a sibling or an ancestor. */
  lemma {:induction false} OnePath(tokens: set<Token>, t: Token, a: Token, b: Token)
    requires Shape(tokens) && t in tokens && a in tokens && b in tokens
    requires Under(t, a, tokens) && Under(t, b, tokens)
    ensures Under(a, b, tokens) || Under(b, a, tokens)
    ensures a != b ==> a.parent != b.parent
    decreases t.depth
  {
    if t != a && t != b {
      OnePath(tokens, t.parent, a, b);
    }
    if Under(a, b, tokens) && a != b { UnderDeeper(tokens, a, b); }
    if Under(b, a, tokens) && a != b { UnderDeeper(tokens, b, a); }
  }

  /** No token is below its own descendant. */
  lemma AncestorsSpared(tokens: set<Token>, t: Token, top: Token)
    requires Shape(tokens) && t in tokens && Under(t, top, tokens) && t != top
    ensures top in tokens && !Under(top, t, tokens)
  {
    UnderDeeper(tokens, t, top);
    if Under(top, t, tokens) {
      UnderDeeper(tokens, top, t);
    }
  }
}
