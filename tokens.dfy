/**
 * A parsed description as the rule-based parser sees it: a sequence of
 * tokens carrying the attributes the language model attaches to them.
 * How those attributes are computed is not part of this model; they are
 * given.
 */
module Tokens {
  import opened Wrappers

  /** Universal part-of-speech tags (`token.pos_`). */
  datatype Pos = Adj | Adp | Adv | Aux | CConj | Det | Intj | Noun | Num | Part | Pron
               | PropN | Punct | SConj | Sym | Verb | X | Space

  /**
   * One token: `text`, `lemma_` (here `baseForm`, since `lemma` is a keyword), `pos_`, `is_quote`, the index of
   * `head` in the document, and the dependency label `dep_`.
   */
  datatype Token = Token(text: string, baseForm: string, pos: Pos, isQuote: bool, head: nat, dep: string)

  type Doc = seq<Token>

  /** Every head is a token of the same document (the root is its own head). */
  predicate WellFormed(doc: Doc)
  {
    forall i :: 0 <= i < |doc| ==> doc[i].head < |doc|
  }

  /** `pos_ in ("NOUN", "PROPN")` */
  predicate IsNounLike(p: Pos)
  {
    p == Noun || p == PropN
  }

  /** `pos_ in ("NOUN", "PROPN", "SYM")` */
  predicate IsNameLike(p: Pos)
  {
    p == Noun || p == PropN || p == Sym
  }

  /** The texts of a run of tokens, in order. */
  function Texts(ts: seq<Token>): (r: seq<string>)
    ensures |r| == |ts|
  {
    seq(|ts|, k requires 0 <= k < |ts| => ts[k].text)
  }

  /** `token.head.lemma_` */
  function HeadLemma(doc: Doc, i: nat): string
    requires WellFormed(doc) && i < |doc|
  {
    doc[doc[i].head].baseForm
  }

  /** Token `j` is one of `doc[h].children` and carries dependency label `dep`. */
  predicate IsChildWithDep(doc: Doc, j: nat, h: nat, dep: string)
    requires j < |doc|
  {
    doc[j].head == h && j != h && doc[j].dep == dep
  }

  /**
   * The first of `doc[h].children` (in document order) whose label is
   * `dep`, searching from index `from`: the `for child in
   * token.head.children: if child.dep_ == dep: ... break` search.
   */
  function FirstChildWithDep(doc: Doc, h: nat, dep: string, from: nat): (c: Option<nat>)
    requires from <= |doc|
    ensures c.Some? ==> from <= c.value < |doc| && IsChildWithDep(doc, c.value, h, dep)
    ensures c.Some? ==> forall j :: from <= j < c.value ==> !IsChildWithDep(doc, j, h, dep)
    ensures c.None? ==> forall j :: from <= j < |doc| ==> !IsChildWithDep(doc, j, h, dep)
    decreases |doc| - from
  {
    if from == |doc| then None
    else if IsChildWithDep(doc, from, h, dep) then Some(from)
    else FirstChildWithDep(doc, h, dep, from + 1)
  }
}
