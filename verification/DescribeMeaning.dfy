/** What DESCRIBE is about, on the stored quads and the tags in their ids (query.rs). */
module DescribeMeaning {
  import opened Describe

  /** The tag is the four bits above the 59 of the payload: 1 for an IRI, 2 for a blank node. */
  predicate HasTag(id: int, tag: int) {
    id / 0x800_0000_0000_0000 % 16 == tag
  }

  /** Quads of the default graph are read, and with the union of graphs all are. */
  predicate IsRead(union: bool, q: StoredQuad) {
    union || q.g == 0
  }

  ghost predicate IsStored(quads: set<StoredQuad>, union: bool, s: int, p: int, o: int) {
    exists q :: q in quads && IsRead(union, q) && q.s == s && q.p == p && q.o == o
  }

  ghost predicate HasObject(quads: set<StoredQuad>, union: bool, s: int, o: int) {
    exists p :: IsStored(quads, union, s, p, o)
  }

  /** A seed tagged as an IRI or as a blank node, then stored objects tagged as blank nodes. */
  ghost predicate IsQuadChain(quads: set<StoredQuad>, union: bool, seeds: seq<int>, chain: seq<int>) {
    && chain != [] && chain[0] in seeds && (HasTag(chain[0], 1) || HasTag(chain[0], 2))
    && forall i | 0 < i < |chain| :: HasTag(chain[i], 2) && HasObject(quads, union, chain[i - 1], chain[i])
  }

  ghost predicate IsReached(quads: set<StoredQuad>, union: bool, seeds: seq<int>, x: int) {
    exists chain :: IsQuadChain(quads, union, seeds, chain) && chain[|chain| - 1] == x
  }

  lemma TagsAreBits(id: int)
    ensures IsBlank(id) <==> HasTag(id, 2)
    ensures IsDescribable(id) <==> HasTag(id, 1) || HasTag(id, 2)
  {
  }

  lemma FactsAreQuads(quads: set<StoredQuad>, union: bool, f: Fact)
    ensures f in Visible(quads, union) <==> IsStored(quads, union, f.s, f.p, f.o)
  {
    if q :| q in quads && IsRead(union, q) && q.s == f.s && q.p == f.p && q.o == f.o {
      assert Fact(q.s, q.p, q.o) in Visible(quads, union);
    }
  }

  lemma LinksAreQuads(quads: set<StoredQuad>, union: bool, a: int, b: int)
    ensures Links(Visible(quads, union), a, b) <==> HasObject(quads, union, a, b)
  {
    hide Visible, IsStored;
    if f :| f in Visible(quads, union) && f.s == a && f.o == b {
      FactsAreQuads(quads, union, f);
    }
    if p :| IsStored(quads, union, a, p, b) {
      FactsAreQuads(quads, union, Fact(a, p, b));
    }
  }

  /** What DESCRIBE answers with: the facts stored of the subjects such chains reach. */
  lemma DescribedOnQuads(quads: set<StoredQuad>, union: bool, seeds: seq<int>, f: Fact)
    ensures f in Visible(quads, union) && Described(Visible(quads, union), seeds, f.s)
       <==> IsStored(quads, union, f.s, f.p, f.o) && IsReached(quads, union, seeds, f.s)
  {
    hide Visible, IsStored, Links, HasObject, IsBlank, IsDescribable, HasTag;
    FactsAreQuads(quads, union, f);
    forall chain
      ensures IsChain(Visible(quads, union), seeds, chain) <==> IsQuadChain(quads, union, seeds, chain)
    {
      forall i | 0 < i < |chain|
        ensures Links(Visible(quads, union), chain[i - 1], chain[i])
          <==> HasObject(quads, union, chain[i - 1], chain[i])
        ensures IsBlank(chain[i]) <==> HasTag(chain[i], 2)
      {
        LinksAreQuads(quads, union, chain[i - 1], chain[i]);
        TagsAreBits(chain[i]);
      }
      if chain != [] {
        TagsAreBits(chain[0]);
      }
    }
  }
}
