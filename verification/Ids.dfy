/** Encoded terms as the tables hold them. The real id of a term is a 4-bit tag and a 59-bit
    payload, a hash for most kinds; a colliding dictionary insert aborts its whole request, so
    ids are taken to be injective here: the constructor is the tag, the fields the payload.
    `Encoding` models how ids are packed. */
module Ids {

  /** The number of payloads: 59 bits. */
  const PAYLOADS: nat := 0x800_0000_0000_0000

  /** The namespaces whose IRIs the code recognises by prefix or by exact name. */
  datatype Namespace = Rdf | Rdfs | Owl | Oxl | Shacl | Oxilite | OtherNs

  datatype LiteralType = XsdString | XsdBoolean | XsdInteger | XsdDateTime | LangString(tag: string) | OtherType(n: nat)

  datatype Id =
    | DefaultGraph
    | Iri(ns: Namespace, local: nat)
    | Blank(payload: nat)
    | Literal(lex: string, kind: LiteralType)
    | TripleTerm(payload: nat)

  datatype Triple = Triple(s: Id, p: Id, o: Id)
  datatype Quad = Quad(s: Id, p: Id, o: Id, g: Id)

  datatype Option<+T> = None | Some(value: T)

  /** The id's tag is IRI, blank node or triple term: 1, 2 or 9. */
  predicate NonLiteral(x: Id) {
    x.Iri? || x.Blank? || x.TripleTerm?
  }

  const TYPE := Iri(Rdf, 0)
  const FIRST := Iri(Rdf, 1)
  const REST := Iri(Rdf, 2)
  const NIL := Iri(Rdf, 3)

  const SUB_CLASS_OF := Iri(Rdfs, 0)
  const SUB_PROPERTY_OF := Iri(Rdfs, 1)
  const DOMAIN := Iri(Rdfs, 2)
  const RANGE := Iri(Rdfs, 3)

  const EQUIVALENT_CLASS := Iri(Owl, 0)
  const EQUIVALENT_PROPERTY := Iri(Owl, 1)
  const INVERSE_OF := Iri(Owl, 2)
  const SYMMETRIC := Iri(Owl, 3)
  const TRANSITIVE := Iri(Owl, 4)
  const SAME_AS := Iri(Owl, 5)
  const FUNCTIONAL := Iri(Owl, 6)
  const INVERSE_FUNCTIONAL := Iri(Owl, 7)
  const HAS_VALUE := Iri(Owl, 8)
  const ON_PROPERTY := Iri(Owl, 9)
  const SOME_VALUES := Iri(Owl, 10)
  const ALL_VALUES := Iri(Owl, 11)
  const INTERSECTION := Iri(Owl, 12)
  const UNION := Iri(Owl, 13)
  const CHAIN := Iri(Owl, 14)
  const THING := Iri(Owl, 15)
  const NOTHING := Iri(Owl, 16)
  const CLASS := Iri(Owl, 17)
  const OWL_IMPORTS := Iri(Owl, 18)

  const SYSTEM_GRAPH := Iri(Oxl, 0)
  const ONTOLOGY_GRAPH := Iri(Oxl, 1)
  const SHAPES_GRAPH := Iri(Oxl, 2)
  const SHEX_GRAPH := Iri(Oxl, 3)
  const APPLIES_TO := Iri(Oxl, 4)
  const ACTIVE := Iri(Oxl, 5)
  const ONTOLOGY_IRI := Iri(Oxl, 6)
  const VERSION := Iri(Oxl, 7)
  const SHA256 := Iri(Oxl, 8)
  const LOADED_AT := Iri(Oxl, 9)
  /** Stands for the default graph where the registry needs an IRI. */
  const DEFAULT_NODE := Iri(Oxl, 10)
  const ALL_GRAPHS := Iri(Oxl, 11)
  const IMPORTS := Iri(Oxl, 12)

  const SCHEMA_GRAPH := Iri(Oxilite, 0)
  const VOCABULARY_GRAPH := Iri(Oxilite, 1)

  const SH_TARGET_CLASS := Iri(Shacl, 0)
  const SH_PROPERTY := Iri(Shacl, 1)
  const SH_PATH := Iri(Shacl, 2)
  const SH_DATATYPE := Iri(Shacl, 3)
  const SH_MIN_COUNT := Iri(Shacl, 4)
  const SH_MAX_COUNT := Iri(Shacl, 5)
  const SH_PATTERN := Iri(Shacl, 6)
  const SH_CLASS := Iri(Shacl, 7)
  const SH_NODE := Iri(Shacl, 8)
  const SH_IN := Iri(Shacl, 9)

  /** The literals that make a registration inactive. */
  const FALSES := {Literal("false", XsdBoolean), Literal("0", XsdBoolean)}

  const SYSTEM_GRAPHS := {SCHEMA_GRAPH, VOCABULARY_GRAPH}

  /** The ids in these triples. */
  function Terms(triples: set<Triple>): set<Id> {
    (set t | t in triples :: t.s) + (set t | t in triples :: t.p) + (set t | t in triples :: t.o)
  }

  predicate Within(ids: set<Id>, t: Triple) {
    t.s in ids && t.p in ids && t.o in ids
  }
}
