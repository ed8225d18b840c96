/**
 The symbol graph's two edge tables (internal/storage/sqlite/graph.go) and the write job that drives them
 (internal/daemon/writer.go, processEnrichmentJob): edges whose target is known, and pending edges that name
 a target not defined yet.

 `Graph` is the value of the tables, `GraphStore` the mutable store. Row ids come from AUTOINCREMENT, so they
 are positive and never used twice. `LIMIT 1` without an order picks any row.
 */
module SymbolGraph {
  import opened Options

  type Id = nat

  datatype EdgeKind = Imports | Calls | TypeRef | Inherits | Implements

  datatype File = File(path: string, hash: string, language: string)
  datatype Symbol = Symbol(name: string, file: Id)
  /** UNIQUE (src_symbol_id, dst_symbol_id, kind). */
  datatype EdgeKey = EdgeKey(src: Id, dst: Id, kind: EdgeKind)
  datatype PendingEdge = PendingEdge(src: Id, file: Id, dst: string, kind: EdgeKind, language: string)

  /** The tables; `edges` maps each edge to the file_id it came with. */
  datatype Graph = Graph(
    files: map<Id, File>,
    symbols: map<Id, Symbol>,
    edges: map<EdgeKey, Id>,
    pending: map<Id, PendingEdge>
  )

  const EMPTY := Graph(map[], map[], map[], map[])

  datatype ParsedSymbol = ParsedSymbol(name: string, chunk: int)
  datatype ParsedEdge = ParsedEdge(src: string, dst: string, kind: EdgeKind)

  datatype Job = Job(
    path: string,
    hash: string,
    language: string,
    chunks: nat,
    symbols: seq<ParsedSymbol>,
    edges: seq<ParsedEdge>
  )

  // ---- Lookup ----

  function InFile(g: Graph, name: string, file: Id): set<Id> {
    set s | s in g.symbols && g.symbols[s] == Symbol(name, file)
  }

  function InLanguage(g: Graph, name: string, language: string): set<Id> {
    set s | s in g.symbols && g.symbols[s].name == name && LanguageOf(g, s) == Some(language)
  }

  function Named(g: Graph, name: string): set<Id> {
    set s | s in g.symbols && g.symbols[s].name == name
  }

  function LanguageOf(g: Graph, s: Id): Option<string> {
    if s in g.symbols && g.symbols[s].file in g.files then Some(g.files[g.symbols[s].file].language) else None
  }

  /** What lookupSymbolIDTx may return: same file first, then same language, global only without a language. */
  function Candidates(g: Graph, name: string, file: Id, language: string): set<Id> {
    if file > 0 && InFile(g, name, file) != {} then InFile(g, name, file)
    else if language != "" then InLanguage(g, name, language)
    else Named(g, name)
  }

  ghost predicate Has(g: Graph, name: string, file: Id) {
    exists s :: s in g.symbols && g.symbols[s] == Symbol(name, file)
  }

  ghost predicate Defines(g: Graph, s: Id, name: string, language: string) {
    && s in g.symbols && g.symbols[s].name == name
    && g.symbols[s].file in g.files && g.files[g.symbols[s].file].language == language
  }

  /**
   A lookup in terms of the tables: a symbol of the file itself if it has one of the name, else one that the language
   defines, or any one if there is no language; 0 if there is none.
   */
  ghost predicate Finds(g: Graph, name: string, file: Id, language: string, id: Id) {
    if file > 0 && Has(g, name, file) then id in g.symbols && g.symbols[id] == Symbol(name, file)
    else if language != "" then
      if exists s :: Defines(g, s, name, language) then Defines(g, id, name, language) else id == 0
    else
      if exists s :: s in g.symbols && g.symbols[s].name == name then id in g.symbols && g.symbols[id].name == name
      else id == 0
  }

  lemma CandidateFinds(g: Graph, name: string, file: Id, language: string, id: Id)
    requires id == 0 <==> Candidates(g, name, file, language) == {}
    requires id != 0 ==> id in Candidates(g, name, file, language)
    ensures Finds(g, name, file, language, id)
  {
    assert forall s :: s in InFile(g, name, file) <==> s in g.symbols && g.symbols[s] == Symbol(name, file);
    assert forall s :: s in InLanguage(g, name, language) <==> Defines(g, s, name, language);
    assert forall s :: s in Named(g, name) <==> s in g.symbols && g.symbols[s].name == name;
    if Has(g, name, file) {
      var s :| s in g.symbols && g.symbols[s] == Symbol(name, file);
      assert s in InFile(g, name, file);
    }
    if s :| Defines(g, s, name, language) {
      assert s in InLanguage(g, name, language);
    }
    if s :| s in g.symbols && g.symbols[s].name == name {
      assert s in Named(g, name);
    }
  }

  /** What an edge to `name` may be resolved to when the job's own symbols are `ids`. */
  function Targets(g: Graph, name: string, ids: map<string, Id>, file: Id, language: string): set<Id> {
    if name in ids then {ids[name]} else Candidates(g, name, file, language)
  }

  // ---- The invariant ----

  /** Foreign keys, and every row of a file carries that file's id and language. */
  ghost predicate Linked(g: Graph) {
    && 0 !in g.files && 0 !in g.symbols
    && (forall s :: s in g.symbols ==> g.symbols[s].file in g.files)
    && (forall k :: k in g.edges ==> k.src in g.symbols && k.dst in g.symbols && g.edges[k] == g.symbols[k.src].file)
    && (forall r :: r in g.pending ==>
          && g.pending[r].src in g.symbols && g.pending[r].file == g.symbols[g.pending[r].src].file
          && g.files[g.pending[r].file].language == g.pending[r].language)
  }

  ghost predicate PathsUnique(g: Graph) {
    forall e, f :: e in g.files && f in g.files && g.files[e].path == g.files[f].path ==> e == f
  }

  ghost predicate LanguagesKnown(g: Graph) {
    forall f :: f in g.files ==> g.files[f].language != ""
  }

  ghost predicate SameLanguage(g: Graph) {
    forall k :: k in g.edges ==> LanguageOf(g, k.src) == LanguageOf(g, k.dst)
  }

  /** What a pending edge waits for: a symbol of this name in this language. */
  datatype Wanted = Wanted(name: string, language: string)

  function WantedBy(p: PendingEdge): Wanted {
    Wanted(p.dst, p.language)
  }

  /** No pending edge waits for a symbol that is defined, except perhaps those that wait for one of `but`. */
  ghost predicate UnresolvableBut(g: Graph, but: set<Wanted>) {
    forall r :: r in g.pending && WantedBy(g.pending[r]) !in but
                ==> InLanguage(g, g.pending[r].dst, g.pending[r].language) == {}
  }

  function Defined(names: set<string>, language: string): set<Wanted> {
    set n | n in names :: Wanted(n, language)
  }

  function Unnamed(but: set<Wanted>, names: set<string>): set<Wanted> {
    set w | w in but && w.name !in names
  }

  /** What holds at every moment, even after a job that failed halfway. */
  ghost predicate Sound(g: Graph) {
    Linked(g) && PathsUnique(g) && LanguagesKnown(g) && SameLanguage(g)
  }

  ghost predicate Settled(g: Graph) {
    Sound(g) && UnresolvableBut(g, {})
  }

  // ---- Arcs: an edge by the name of its target, resolved or not ----

  datatype Arc = Arc(src: Id, dst: string, kind: EdgeKind)

  function ResolvedArcs(g: Graph, file: Id): set<Arc> {
    set k | k in g.edges && g.edges[k] == file && k.dst in g.symbols :: Arc(k.src, g.symbols[k.dst].name, k.kind)
  }

  function PendingArcs(g: Graph, file: Id): set<Arc> {
    set r | r in g.pending && g.pending[r].file == file :: Arc(g.pending[r].src, g.pending[r].dst, g.pending[r].kind)
  }

  function Arcs(g: Graph, file: Id): set<Arc> {
    ResolvedArcs(g, file) + PendingArcs(g, file)
  }

  /** The arcs a parse asks for: those whose source is a known symbol. */
  function ParsedArcs(parsed: seq<ParsedEdge>, ids: map<string, Id>): set<Arc> {
    set e | e in parsed && e.src in ids :: Arc(ids[e.src], e.dst, e.kind)
  }

  lemma TargetUndefined(g: Graph, r: Id, s: Id)
    requires UnresolvableBut(g, {}) && r in g.pending
    requires s in g.symbols && LanguageOf(g, s) == Some(g.pending[r].language)
    ensures g.symbols[s].name != g.pending[r].dst
  {
    assert s !in InLanguage(g, g.pending[r].dst, g.pending[r].language);
  }

  /** No edge and pending row of this file say the same. */
  ghost predicate ApartIn(g: Graph, file: Id) {
    forall k, r :: k in g.edges && g.edges[k] == file && r in g.pending && g.pending[r].file == file
                   ==> !SameArc(g, k, g.pending[r])
  }

  ghost predicate SameArc(g: Graph, k: EdgeKey, p: PendingEdge) {
    k.src == p.src && k.kind == p.kind && k.dst in g.symbols && g.symbols[k.dst].name == p.dst
  }

  lemma TablesDisjoint(g: Graph, file: Id)
    requires ApartIn(g, file)
    ensures ResolvedArcs(g, file) !! PendingArcs(g, file)
  {
    forall k, r | k in g.edges && g.edges[k] == file && k.dst in g.symbols
                  && r in g.pending && g.pending[r].file == file
      ensures Arc(k.src, g.symbols[k.dst].name, k.kind) != Arc(g.pending[r].src, g.pending[r].dst, g.pending[r].kind)
    {
      assert !SameArc(g, k, g.pending[r]);
    }
  }

  /** What is settled is apart. */
  lemma SettledIsApart(g: Graph, file: Id)
    requires Settled(g)
    ensures ApartIn(g, file)
  {
    forall k, r | k in g.edges && g.edges[k] == file && r in g.pending && g.pending[r].file == file
      ensures !SameArc(g, k, g.pending[r])
    {
      if k.src == g.pending[r].src {
        TargetUndefined(g, r, k.dst);
      }
    }
  }

  // ---- Removing rows ----

  /** Deleting a file's chunks: its symbols go with them, and the rows that refer to those. */
  function WithoutSymbols(g: Graph, file: Id): Graph {
    var kept := map s | s in g.symbols && g.symbols[s].file != file :: g.symbols[s];
    g.(symbols := kept,
       edges := map k | k in g.edges && k.src in kept && k.dst in kept :: g.edges[k],
       pending := map r | r in g.pending && g.pending[r].src in kept :: g.pending[r])
  }

  /** Deleting the file row itself. */
  function WithoutFile(g: Graph, file: Id): Graph {
    var h := WithoutSymbols(g, file);
    h.(files := h.files - {file},
       edges := map k | k in h.edges && h.edges[k] != file :: h.edges[k],
       pending := map r | r in h.pending && h.pending[r].file != file :: h.pending[r])
  }

  /** The tables once the file's row is written. */
  function Upserted(g: Graph, file: Id, record: File): Graph {
    g.(files := g.files[file := record])
  }

  /** The tables once the file's row is written and its chunks are deleted. */
  function Cleared(g: Graph, file: Id, replacement: File): Graph {
    WithoutSymbols(Upserted(g, file, replacement), file)
  }

  lemma ClearedLanguage(g: Graph, file: Id, replacement: File, s: Id)
    requires s in Cleared(g, file, replacement).symbols
    ensures LanguageOf(Cleared(g, file, replacement), s) == LanguageOf(g, s)
  {}

  lemma ClearedLinked(g: Graph, file: Id, replacement: File)
    requires Linked(g) && file > 0
    ensures Linked(Cleared(g, file, replacement)) && NothingOf(Cleared(g, file, replacement), file)
  {}

  /** Clearing a file resolves nothing and defines nothing. */
  lemma ClearedSound(g: Graph, file: Id, replacement: File)
    requires Sound(g) && file > 0 && replacement.language != ""
    requires forall f :: f in g.files && g.files[f].path == replacement.path ==> f == file
    ensures Sound(Cleared(g, file, replacement)) && NothingOf(Cleared(g, file, replacement), file)
  {
    var h := Cleared(g, file, replacement);
    ClearedLinked(g, file, replacement);
    forall k | k in h.edges ensures LanguageOf(h, k.src) == LanguageOf(h, k.dst) {
      ClearedLanguage(g, file, replacement, k.src);
      ClearedLanguage(g, file, replacement, k.dst);
    }
  }

  lemma ClearedUnresolvable(g: Graph, file: Id, replacement: File, but: set<Wanted>)
    requires UnresolvableBut(g, but)
    ensures UnresolvableBut(Cleared(g, file, replacement), but)
  {
    var h := Cleared(g, file, replacement);
    forall s | s in h.symbols ensures LanguageOf(h, s) == LanguageOf(g, s) {
      ClearedLanguage(g, file, replacement, s);
    }
    forall r | r in h.pending && WantedBy(h.pending[r]) !in but
      ensures InLanguage(h, h.pending[r].dst, h.pending[r].language) == {}
    {
      assert InLanguage(g, g.pending[r].dst, g.pending[r].language) == {};
      ShrinkLanguage(g, h, h.pending[r].dst, h.pending[r].language);
    }
  }

  lemma ShrinkLanguage(g: Graph, h: Graph, name: string, language: string)
    requires forall s :: s in h.symbols ==>
               s in g.symbols && g.symbols[s] == h.symbols[s] && LanguageOf(h, s) == LanguageOf(g, s)
    ensures InLanguage(h, name, language) <= InLanguage(g, name, language)
  {}

  ghost predicate NothingOf(g: Graph, file: Id) {
    && (forall s :: s in g.symbols ==> g.symbols[s].file != file)
    && (forall k :: k in g.edges ==> g.edges[k] != file)
    && (forall r :: r in g.pending ==> g.pending[r].file != file)
  }

  // ---- Adding symbols ----

  function Extended(g: Graph, added: map<Id, Symbol>): Graph {
    g.(symbols := g.symbols + added)
  }

  ghost predicate FreshSymbols(g: Graph, file: Id, added: map<Id, Symbol>, names: set<string>) {
    && file in g.files
    && forall s :: s in added ==> s > 0 && s !in g.symbols && added[s].file == file && added[s].name in names
  }

  lemma ExtendedLanguage(g: Graph, file: Id, added: map<Id, Symbol>, names: set<string>, s: Id)
    requires FreshSymbols(g, file, added, names) && s in g.symbols
    ensures LanguageOf(Extended(g, added), s) == LanguageOf(g, s)
  {}

  lemma ExtendedSound(g: Graph, file: Id, added: map<Id, Symbol>, names: set<string>)
    requires Sound(g) && FreshSymbols(g, file, added, names)
    ensures Sound(Extended(g, added))
  {
    var h := Extended(g, added);
    forall k | k in h.edges ensures LanguageOf(h, k.src) == LanguageOf(h, k.dst) {
      ExtendedLanguage(g, file, added, names, k.src);
      ExtendedLanguage(g, file, added, names, k.dst);
    }
  }

  /** New symbols make those pending edges resolvable that wait for them, and no others. */
  lemma ExtendedResolvable(g: Graph, file: Id, added: map<Id, Symbol>, r: Id)
    requires FreshSymbols(g, file, added, Names(added)) && r in g.pending
    ensures var h, p := Extended(g, added), g.pending[r];
      InLanguage(h, p.dst, p.language) != {} <==>
        || InLanguage(g, p.dst, p.language) != {}
        || WantedBy(p) in Defined(Names(added), g.files[file].language)
  {
    var h, p := Extended(g, added), g.pending[r];
    forall s ensures s in InLanguage(h, p.dst, p.language) <==>
        || s in InLanguage(g, p.dst, p.language)
        || (s in added && added[s].name == p.dst && g.files[file].language == p.language)
    {
      if s in g.symbols {
        ExtendedLanguage(g, file, added, Names(added), s);
      }
    }
    if WantedBy(p) in Defined(Names(added), g.files[file].language) {
      var s :| s in added && added[s].name == p.dst;
      assert s in InLanguage(h, p.dst, p.language);
    }
  }

  lemma ExtendedUnresolvable(g: Graph, file: Id, added: map<Id, Symbol>, but: set<Wanted>)
    requires UnresolvableBut(g, but) && FreshSymbols(g, file, added, Names(added))
    ensures UnresolvableBut(Extended(g, added), but + Defined(Names(added), g.files[file].language))
  {
    var h := Extended(g, added);
    forall r | r in h.pending && WantedBy(h.pending[r]) !in but + Defined(Names(added), g.files[file].language)
      ensures InLanguage(h, h.pending[r].dst, h.pending[r].language) == {}
    {
      ExtendedResolvable(g, file, added, r);
    }
  }

  lemma ExtendedArcs(g: Graph, file: Id, added: map<Id, Symbol>, names: set<string>, other: Id)
    requires Linked(g) && FreshSymbols(g, file, added, names)
    ensures ResolvedArcs(Extended(g, added), other) == ResolvedArcs(g, other)
    ensures PendingArcs(Extended(g, added), other) == PendingArcs(g, other)
  {
    var h := Extended(g, added);
    forall a ensures a in ResolvedArcs(h, other) <==> a in ResolvedArcs(g, other) {
      assert forall k :: k in g.edges ==> k.dst in g.symbols && h.symbols[k.dst] == g.symbols[k.dst];
    }
  }

  // ---- Inserting a file's edges ----

  /** The job's own symbols. */
  ghost predicate OwnSymbols(g: Graph, ids: map<string, Id>, file: Id) {
    forall n :: n in ids ==> ids[n] in g.symbols && g.symbols[ids[n]] == Symbol(n, file)
  }

  /** The parsed edge is in the table it belongs to. */
  ghost predicate Recorded(g: Graph, h: Graph, e: ParsedEdge, ids: map<string, Id>, file: Id, language: string)
    requires e.src in ids
  {
    var targets := Targets(g, e.dst, ids, file, language);
    if targets == {} then PendingEdge(ids[e.src], file, e.dst, e.kind, language) in h.pending.Values
    else exists d :: d in targets && EdgeKey(ids[e.src], d, e.kind) in h.edges
  }

  ghost predicate EdgeExplained(g: Graph, k: EdgeKey, parsed: seq<ParsedEdge>, ids: map<string, Id>, file: Id,
                                language: string) {
    exists e :: e in parsed && e.src in ids && k.src == ids[e.src] && k.kind == e.kind
      && k.dst in Targets(g, e.dst, ids, file, language)
  }

  ghost predicate RowExplained(g: Graph, p: PendingEdge, parsed: seq<ParsedEdge>, ids: map<string, Id>, file: Id,
                               language: string) {
    exists e :: e in parsed && e.src in ids && Targets(g, e.dst, ids, file, language) == {}
                && p == PendingEdge(ids[e.src], file, e.dst, e.kind, language)
  }

  ghost predicate Extends(g: Graph, h: Graph) {
    && h.files == g.files && h.symbols == g.symbols
    && (forall k :: k in g.edges ==> k in h.edges && h.edges[k] == g.edges[k])
    && (forall r :: r in g.pending ==> r in h.pending && h.pending[r] == g.pending[r])
  }

  ghost predicate EdgesExplained(g: Graph, h: Graph, parsed: seq<ParsedEdge>, ids: map<string, Id>, file: Id,
                                 language: string) {
    forall k :: k in h.edges && k !in g.edges ==> h.edges[k] == file && EdgeExplained(g, k, parsed, ids, file, language)
  }

  ghost predicate RowsExplained(g: Graph, h: Graph, parsed: seq<ParsedEdge>, ids: map<string, Id>, file: Id,
                                language: string) {
    forall r :: r in h.pending && r !in g.pending ==> RowExplained(g, h.pending[r], parsed, ids, file, language)
  }

  ghost predicate AllRecorded(g: Graph, h: Graph, parsed: seq<ParsedEdge>, ids: map<string, Id>, file: Id,
                              language: string) {
    forall e :: e in parsed && e.src in ids ==> Recorded(g, h, e, ids, file, language)
  }

  /** `h` is `g` with these edges inserted: nothing else touched, nothing invented, nothing missing. */
  ghost predicate Inserted(g: Graph, h: Graph, parsed: seq<ParsedEdge>, ids: map<string, Id>, file: Id,
                           language: string) {
    && Extends(g, h)
    && EdgesExplained(g, h, parsed, ids, file, language) && RowsExplained(g, h, parsed, ids, file, language)
    && AllRecorded(g, h, parsed, ids, file, language)
  }

  /** With a language, every target is a symbol of that name in that language. */
  lemma TargetsInLanguage(g: Graph, name: string, ids: map<string, Id>, file: Id, language: string, d: Id)
    requires Linked(g) && OwnSymbols(g, ids, file) && language != ""
    requires file in g.files && g.files[file].language == language
    requires d in Targets(g, name, ids, file, language)
    ensures d in g.symbols && g.symbols[d].name == name && LanguageOf(g, d) == Some(language)
  {}

  lemma InsertedSound(g: Graph, h: Graph, parsed: seq<ParsedEdge>, ids: map<string, Id>, file: Id, language: string)
    requires Sound(g) && OwnSymbols(g, ids, file) && Inserted(g, h, parsed, ids, file, language)
    requires file in g.files && g.files[file].language == language
    ensures Sound(h)
  {
    assert language != "";
    forall k | k in h.edges
      ensures k.src in h.symbols && k.dst in h.symbols && h.edges[k] == h.symbols[k.src].file
      ensures LanguageOf(h, k.src) == LanguageOf(h, k.dst)
    {
      if k in g.edges {
        assert LanguageOf(h, k.src) == LanguageOf(g, k.src) && LanguageOf(h, k.dst) == LanguageOf(g, k.dst);
      } else {
        var e :| e in parsed && e.src in ids && k.src == ids[e.src] && k.kind == e.kind
          && k.dst in Targets(g, e.dst, ids, file, language);
        TargetsInLanguage(g, e.dst, ids, file, language, k.dst);
      }
    }
  }

  lemma InsertedUnresolvable(g: Graph, h: Graph, parsed: seq<ParsedEdge>, ids: map<string, Id>, file: Id,
                             language: string, but: set<Wanted>)
    requires Sound(g) && OwnSymbols(g, ids, file) && Inserted(g, h, parsed, ids, file, language)
    requires file in g.files && g.files[file].language == language
    requires UnresolvableBut(g, but)
    ensures UnresolvableBut(h, but)
  {
    assert language != "";
    forall r | r in h.pending && WantedBy(h.pending[r]) !in but
      ensures InLanguage(h, h.pending[r].dst, h.pending[r].language) == {}
    {
      assert InLanguage(h, h.pending[r].dst, h.pending[r].language) == InLanguage(g, h.pending[r].dst,
          h.pending[r].language);
      if r in g.pending {
        assert WantedBy(g.pending[r]) !in but;
      } else {
        assert RowExplained(g, h.pending[r], parsed, ids, file, language);
      }
    }
  }

  lemma ResolvedArcOf(g: Graph, file: Id, k: EdgeKey)
    requires k in g.edges && g.edges[k] == file && k.dst in g.symbols
    ensures Arc(k.src, g.symbols[k.dst].name, k.kind) in ResolvedArcs(g, file)
  {}

  lemma PendingArcOf(g: Graph, file: Id, r: Id)
    requires r in g.pending && g.pending[r].file == file
    ensures Arc(g.pending[r].src, g.pending[r].dst, g.pending[r].kind) in PendingArcs(g, file)
  {}

  lemma ResolvedArcsWithin(g: Graph, file: Id, within: set<Arc>)
    requires forall k :: k in g.edges && g.edges[k] == file && k.dst in g.symbols
              ==> Arc(k.src, g.symbols[k.dst].name, k.kind) in within
    ensures ResolvedArcs(g, file) <= within
  {}

  lemma PendingArcsWithin(g: Graph, file: Id, within: set<Arc>)
    requires forall r :: r in g.pending && g.pending[r].file == file
                         ==> Arc(g.pending[r].src, g.pending[r].dst, g.pending[r].kind) in within
    ensures PendingArcs(g, file) <= within
  {}

  lemma ParsedArcOf(parsed: seq<ParsedEdge>, ids: map<string, Id>, e: ParsedEdge)
    requires e in parsed && e.src in ids
    ensures Arc(ids[e.src], e.dst, e.kind) in ParsedArcs(parsed, ids)
  {}

  /** No arc is invented. */
  lemma InsertedArcsWithin(g: Graph, h: Graph, parsed: seq<ParsedEdge>, ids: map<string, Id>, file: Id,
                           language: string)
    requires Sound(g) && OwnSymbols(g, ids, file) && Inserted(g, h, parsed, ids, file, language) && language != ""
    requires file in g.files && g.files[file].language == language
    requires forall k :: k in g.edges ==> g.edges[k] != file
    requires forall r :: r in g.pending ==> g.pending[r].file != file
    ensures Arcs(h, file) <= ParsedArcs(parsed, ids)
  {
    forall k | k in h.edges && h.edges[k] == file && k.dst in h.symbols
      ensures Arc(k.src, h.symbols[k.dst].name, k.kind) in ParsedArcs(parsed, ids)
    {
      assert EdgeExplained(g, k, parsed, ids, file, language);
      var e :| e in parsed && e.src in ids && k.src == ids[e.src] && k.kind == e.kind
        && k.dst in Targets(g, e.dst, ids, file, language);
      TargetsInLanguage(g, e.dst, ids, file, language, k.dst);
      ParsedArcOf(parsed, ids, e);
    }
    ResolvedArcsWithin(h, file, ParsedArcs(parsed, ids));
    forall r | r in h.pending && h.pending[r].file == file
      ensures Arc(h.pending[r].src, h.pending[r].dst, h.pending[r].kind) in ParsedArcs(parsed, ids)
    {
      assert RowExplained(g, h.pending[r], parsed, ids, file, language);
      var e :| e in parsed && e.src in ids && h.pending[r] == PendingEdge(ids[e.src], file, e.dst, e.kind, language);
      ParsedArcOf(parsed, ids, e);
    }
    PendingArcsWithin(h, file, ParsedArcs(parsed, ids));
  }

  /** A file without rows gets exactly the arcs of its parse. */
  lemma InsertedArcs(g: Graph, h: Graph, parsed: seq<ParsedEdge>, ids: map<string, Id>, file: Id, language: string)
    requires Sound(g) && OwnSymbols(g, ids, file) && Inserted(g, h, parsed, ids, file, language)
    requires file in g.files && g.files[file].language == language
    requires forall k :: k in g.edges ==> g.edges[k] != file
    requires forall r :: r in g.pending ==> g.pending[r].file != file
    ensures Arcs(h, file) == ParsedArcs(parsed, ids)
  {
    assert language != "";
    InsertedArcsWithin(g, h, parsed, ids, file, language);
    forall a | a in ParsedArcs(parsed, ids) ensures a in Arcs(h, file) {
      var e :| e in parsed && e.src in ids && a == Arc(ids[e.src], e.dst, e.kind);
      RecordedArc(g, h, parsed, e, ids, file, language);
    }
  }

  lemma RecordedArc(g: Graph, h: Graph, parsed: seq<ParsedEdge>, e: ParsedEdge, ids: map<string, Id>, file: Id,
                    language: string)
    requires Sound(g) && OwnSymbols(g, ids, file) && Inserted(g, h, parsed, ids, file, language)
    requires file in g.files && g.files[file].language == language && language != ""
    requires e in parsed && e.src in ids
    ensures Arc(ids[e.src], e.dst, e.kind) in Arcs(h, file)
  {
    assert Recorded(g, h, e, ids, file, language);
    var targets := Targets(g, e.dst, ids, file, language);
    if targets == {} {
      var r :| r in h.pending && h.pending[r] == PendingEdge(ids[e.src], file, e.dst, e.kind, language);
      PendingArcOf(h, file, r);
    } else {
      var d :| d in targets && EdgeKey(ids[e.src], d, e.kind) in h.edges;
      TargetsInLanguage(g, e.dst, ids, file, language, d);
      var k := EdgeKey(ids[e.src], d, e.kind);
      InsertedSound(g, h, parsed, ids, file, language);
      ResolvedArcOf(h, file, k);
    }
  }

  /** Other files keep their arcs. */
  lemma InsertedElsewhere(g: Graph, h: Graph, parsed: seq<ParsedEdge>, ids: map<string, Id>, file: Id,
                          language: string, other: Id)
    requires Linked(g) && Inserted(g, h, parsed, ids, file, language) && other != file
    ensures ResolvedArcs(h, other) == ResolvedArcs(g, other) && PendingArcs(h, other) == PendingArcs(g, other)
  {
    forall k ensures k in h.edges && h.edges[k] == other <==> k in g.edges && g.edges[k] == other {}
    forall r ensures r in h.pending && h.pending[r].file == other <==> r in g.pending && g.pending[r].file == other {}
  }

  // One parsed edge at a time.

  lemma SameLookup(g: Graph, h: Graph, name: string, ids: map<string, Id>, file: Id, language: string)
    requires h.files == g.files && h.symbols == g.symbols
    ensures Candidates(h, name, file, language) == Candidates(g, name, file, language)
    ensures Targets(h, name, ids, file, language) == Targets(g, name, ids, file, language)
  {
    assert forall s :: LanguageOf(h, s) == LanguageOf(g, s);
    assert InFile(h, name, file) == InFile(g, name, file) && Named(h, name) == Named(g, name);
    assert InLanguage(h, name, language) == InLanguage(g, name, language);
  }

  lemma EdgeExplainedMore(g: Graph, k: EdgeKey, parsed: seq<ParsedEdge>, i: nat, ids: map<string, Id>, file: Id,
                          language: string)
    requires i < |parsed| && EdgeExplained(g, k, parsed[..i], ids, file, language)
    ensures EdgeExplained(g, k, parsed[..i + 1], ids, file, language)
  {
    var e :| e in parsed[..i] && e.src in ids && k.src == ids[e.src] && k.kind == e.kind
      && k.dst in Targets(g, e.dst, ids, file, language);
    assert e in parsed[..i + 1];
  }

  lemma RowExplainedMore(g: Graph, p: PendingEdge, parsed: seq<ParsedEdge>, i: nat, ids: map<string, Id>, file: Id,
                         language: string)
    requires i < |parsed| && RowExplained(g, p, parsed[..i], ids, file, language)
    ensures RowExplained(g, p, parsed[..i + 1], ids, file, language)
  {
    var e :| e in parsed[..i] && e.src in ids && Targets(g, e.dst, ids, file, language) == {}
      && p == PendingEdge(ids[e.src], file, e.dst, e.kind, language);
    assert e in parsed[..i + 1];
  }

  /** What was explained stays explained by a longer parse. */
  lemma ExplainedMore(g: Graph, h: Graph, parsed: seq<ParsedEdge>, i: nat, ids: map<string, Id>, file: Id,
                      language: string)
    requires i < |parsed|
    requires EdgesExplained(g, h, parsed[..i], ids, file, language)
              && RowsExplained(g, h, parsed[..i], ids, file, language)
    ensures EdgesExplained(g, h, parsed[..i + 1], ids, file, language)
              && RowsExplained(g, h, parsed[..i + 1], ids, file, language)
  {
    forall k | k in h.edges && k !in g.edges ensures EdgeExplained(g, k, parsed[..i + 1], ids, file, language) {
      EdgeExplainedMore(g, k, parsed, i, ids, file, language);
    }
    forall r | r in h.pending && r !in g.pending
      ensures RowExplained(g, h.pending[r], parsed[..i + 1], ids, file, language) {
      RowExplainedMore(g, h.pending[r], parsed, i, ids, file, language);
    }
  }

  lemma RecordedStays(g: Graph, h: Graph, h': Graph, e: ParsedEdge, ids: map<string, Id>, file: Id, language: string)
    requires e.src in ids && Recorded(g, h, e, ids, file, language) && Extends(h, h')
    ensures Recorded(g, h', e, ids, file, language)
  {
    var targets := Targets(g, e.dst, ids, file, language);
    if targets == {} {
      var r :| r in h.pending && h.pending[r] == PendingEdge(ids[e.src], file, e.dst, e.kind, language);
      assert h'.pending[r] == h.pending[r];
    }
  }

  lemma AllRecordedMore(g: Graph, h: Graph, h': Graph, parsed: seq<ParsedEdge>, i: nat, ids: map<string, Id>,
                        file: Id, language: string)
    requires i < |parsed| && (parsed[i].src in ids ==> Recorded(g, h', parsed[i], ids, file, language))
    requires AllRecorded(g, h, parsed[..i], ids, file, language) && Extends(h, h')
    ensures AllRecorded(g, h', parsed[..i + 1], ids, file, language)
  {
    forall e | e in parsed[..i + 1] && e.src in ids ensures Recorded(g, h', e, ids, file, language) {
      if e in parsed[..i] {
        RecordedStays(g, h, h', e, ids, file, language);
      } else {
        assert e == parsed[i];
      }
    }
  }

  lemma InsertedMore(g: Graph, h: Graph, parsed: seq<ParsedEdge>, i: nat, ids: map<string, Id>, file: Id,
                     language: string)
    requires i < |parsed| && Inserted(g, h, parsed[..i], ids, file, language) && parsed[i].src !in ids
    ensures Inserted(g, h, parsed[..i + 1], ids, file, language)
  {
    ExplainedMore(g, h, parsed, i, ids, file, language);
    AllRecordedMore(g, h, h, parsed, i, ids, file, language);
  }

  function WithEdge(h: Graph, k: EdgeKey, file: Id): Graph {
    h.(edges := if k in h.edges then h.edges else h.edges[k := file])
  }

  function WithRow(h: Graph, r: Id, p: PendingEdge): Graph {
    h.(pending := h.pending[r := p])
  }

  lemma EdgesExplainedWith(g: Graph, h: Graph, k: EdgeKey, parsed: seq<ParsedEdge>, ids: map<string, Id>, file: Id,
                           language: string)
    requires EdgesExplained(g, h, parsed, ids, file, language) && EdgeExplained(g, k, parsed, ids, file, language)
    ensures EdgesExplained(g, WithEdge(h, k, file), parsed, ids, file, language)
  {}

  lemma RowsExplainedWith(g: Graph, h: Graph, r: Id, p: PendingEdge, parsed: seq<ParsedEdge>, ids: map<string, Id>,
                          file: Id, language: string)
    requires RowsExplained(g, h, parsed, ids, file, language) && RowExplained(g, p, parsed, ids, file, language)
    ensures RowsExplained(g, WithRow(h, r, p), parsed, ids, file, language)
  {}

  lemma InsertedEdge(g: Graph, h: Graph, parsed: seq<ParsedEdge>, i: nat, ids: map<string, Id>, file: Id,
                     language: string, d: Id)
    requires i < |parsed| && Inserted(g, h, parsed[..i], ids, file, language)
    requires parsed[i].src in ids && d in Targets(g, parsed[i].dst, ids, file, language)
    ensures Inserted(g, WithEdge(h, EdgeKey(ids[parsed[i].src], d, parsed[i].kind), file), parsed[..i + 1], ids,
        file, language)
  {
    var e, k := parsed[i], EdgeKey(ids[parsed[i].src], d, parsed[i].kind);
    var h' := WithEdge(h, k, file);
    ExplainedMore(g, h, parsed, i, ids, file, language);
    assert EdgeExplained(g, k, parsed[..i + 1], ids, file, language) by {
      assert e in parsed[..i + 1];
    }
    EdgesExplainedWith(g, h, k, parsed[..i + 1], ids, file, language);
    assert Recorded(g, h', e, ids, file, language) by {
      assert k in h'.edges;
    }
    AllRecordedMore(g, h, h', parsed, i, ids, file, language);
  }

  lemma RowRecorded(g: Graph, h: Graph, r: Id, e: ParsedEdge, ids: map<string, Id>, file: Id, language: string)
    requires e.src in ids && Targets(g, e.dst, ids, file, language) == {}
    requires r in h.pending && h.pending[r] == PendingEdge(ids[e.src], file, e.dst, e.kind, language)
    ensures Recorded(g, h, e, ids, file, language)
  {}

  lemma NewRowExplained(g: Graph, parsed: seq<ParsedEdge>, i: nat, ids: map<string, Id>, file: Id, language: string)
    requires i < |parsed| && parsed[i].src in ids && Targets(g, parsed[i].dst, ids, file, language) == {}
    ensures RowExplained(g, PendingEdge(ids[parsed[i].src], file, parsed[i].dst, parsed[i].kind, language),
                         parsed[..i + 1], ids, file, language)
  {
    assert parsed[i] in parsed[..i + 1];
  }

  lemma InsertedRow(g: Graph, h: Graph, parsed: seq<ParsedEdge>, i: nat, ids: map<string, Id>, file: Id,
                    language: string, r: Id)
    requires i < |parsed| && Inserted(g, h, parsed[..i], ids, file, language) && r !in h.pending
    requires parsed[i].src in ids && Targets(g, parsed[i].dst, ids, file, language) == {}
    ensures var p := PendingEdge(ids[parsed[i].src], file, parsed[i].dst, parsed[i].kind, language);
      Inserted(g, WithRow(h, r, p), parsed[..i + 1], ids, file, language)
  {
    var e, p := parsed[i], PendingEdge(ids[parsed[i].src], file, parsed[i].dst, parsed[i].kind, language);
    var h' := WithRow(h, r, p);
    ExplainedMore(g, h, parsed, i, ids, file, language);
    NewRowExplained(g, parsed, i, ids, file, language);
    RowsExplainedWith(g, h, r, p, parsed[..i + 1], ids, file, language);
    RowRecorded(g, h', r, e, ids, file, language);
    AllRecordedMore(g, h, h', parsed, i, ids, file, language);
  }

  // ---- Resolving pending edges ----

  predicate Resolvable(g: Graph, p: PendingEdge, names: set<string>) {
    p.dst in names && Candidates(g, p.dst, 0, p.language) != {}
  }

  ghost predicate ResolutionOf(g: Graph, k: EdgeKey, p: PendingEdge) {
    k.src == p.src && k.kind == p.kind && k.dst in Candidates(g, p.dst, 0, p.language)
  }

  /** `h` is `g` with every resolvable pending edge to one of `names` moved over to the edges. */
  ghost predicate ResolvedNames(g: Graph, h: Graph, names: set<string>) {
    && h.files == g.files && h.symbols == g.symbols
    && (forall r :: r in h.pending <==> r in g.pending && !Resolvable(g, g.pending[r], names))
    && (forall r :: r in h.pending ==> h.pending[r] == g.pending[r])
    && (forall k :: k in g.edges ==> k in h.edges && h.edges[k] == g.edges[k])
    && (forall k :: k in h.edges && k !in g.edges ==> MovedFrom(g, k, h.edges[k], names))
    && (forall r :: r in g.pending && Resolvable(g, g.pending[r], names) ==> MovedTo(g, h, g.pending[r]))
  }

  ghost predicate MovedFrom(g: Graph, k: EdgeKey, file: Id, names: set<string>) {
    exists r :: r in g.pending && Resolvable(g, g.pending[r], names) && ResolutionOf(g, k, g.pending[r])
      && file == g.pending[r].file
  }

  ghost predicate MovedTo(g: Graph, h: Graph, p: PendingEdge) {
    exists k :: k in h.edges && ResolutionOf(g, k, p)
  }

  lemma ResolutionInLanguage(g: Graph, r: Id, k: EdgeKey)
    requires Linked(g) && LanguagesKnown(g) && r in g.pending && ResolutionOf(g, k, g.pending[r])
    ensures k.src in g.symbols && k.dst in g.symbols && g.symbols[k.dst].name == g.pending[r].dst
    ensures LanguageOf(g, k.src) == LanguageOf(g, k.dst) && g.symbols[k.src].file == g.pending[r].file
  {}

  lemma ResolvedEdge(g: Graph, h: Graph, names: set<string>, k: EdgeKey)
    requires Sound(g) && ResolvedNames(g, h, names) && k in h.edges
    ensures k.src in h.symbols && k.dst in h.symbols && h.edges[k] == h.symbols[k.src].file
    ensures LanguageOf(h, k.src) == LanguageOf(h, k.dst)
  {
    if k in g.edges {
      assert LanguageOf(h, k.src) == LanguageOf(g, k.src) && LanguageOf(h, k.dst) == LanguageOf(g, k.dst);
    } else {
      assert MovedFrom(g, k, h.edges[k], names);
      var r :| r in g.pending && Resolvable(g, g.pending[r], names) && ResolutionOf(g, k, g.pending[r])
        && h.edges[k] == g.pending[r].file;
      ResolutionInLanguage(g, r, k);
    }
  }

  lemma ResolvedSound(g: Graph, h: Graph, names: set<string>)
    requires Sound(g) && ResolvedNames(g, h, names)
    ensures Sound(h)
  {
    forall k | k in h.edges
      ensures k.src in h.symbols && k.dst in h.symbols && h.edges[k] == h.symbols[k.src].file
      ensures LanguageOf(h, k.src) == LanguageOf(h, k.dst)
    {
      ResolvedEdge(g, h, names, k);
    }
  }

  /** No pending edge to one of the names is left resolvable. */
  lemma ResolvedSettles(g: Graph, h: Graph, names: set<string>, but: set<Wanted>)
    requires Sound(g) && UnresolvableBut(g, but) && ResolvedNames(g, h, names)
    ensures Sound(h) && UnresolvableBut(h, Unnamed(but, names))
  {
    ResolvedSound(g, h, names);
    forall r | r in h.pending && WantedBy(h.pending[r]) !in Unnamed(but, names)
      ensures InLanguage(h, h.pending[r].dst, h.pending[r].language) == {}
    {
      var p := g.pending[r];
      assert p.language != "";
      assert InLanguage(h, p.dst, p.language) == InLanguage(g, p.dst, p.language) == Candidates(g, p.dst, 0, p.language)
        by { assert forall s :: LanguageOf(h, s) == LanguageOf(g, s); }
    }
  }

  lemma ResolvedAddsNoArc(g: Graph, h: Graph, names: set<string>, file: Id)
    requires Sound(g) && ResolvedNames(g, h, names)
    ensures Arcs(h, file) <= Arcs(g, file)
  {
    forall a | a in ResolvedArcs(h, file) ensures a in Arcs(g, file) {
      var k :| k in h.edges && h.edges[k] == file && k.dst in h.symbols
        && a == Arc(k.src, h.symbols[k.dst].name, k.kind);
      if k in g.edges {
        ResolvedArcOf(g, file, k);
      } else {
        var r :| r in g.pending && Resolvable(g, g.pending[r], names) && ResolutionOf(g, k, g.pending[r])
          && h.edges[k] == g.pending[r].file;
        ResolutionInLanguage(g, r, k);
        PendingArcOf(g, file, r);
      }
    }
    forall a | a in PendingArcs(h, file) ensures a in Arcs(g, file) {
      var r :| r in h.pending && h.pending[r].file == file
        && a == Arc(h.pending[r].src, h.pending[r].dst, h.pending[r].kind);
      PendingArcOf(g, file, r);
    }
  }

  lemma RowKeepsArc(g: Graph, h: Graph, names: set<string>, r: Id)
    requires Sound(g) && Sound(h) && ResolvedNames(g, h, names) && r in g.pending
    ensures Arc(g.pending[r].src, g.pending[r].dst, g.pending[r].kind) in Arcs(h, g.pending[r].file)
  {
    var file := g.pending[r].file;
    if Resolvable(g, g.pending[r], names) {
      assert MovedTo(g, h, g.pending[r]);
      var k :| k in h.edges && ResolutionOf(g, k, g.pending[r]);
      ResolutionInLanguage(g, r, k);
      ResolvedArcOf(h, file, k);
    } else {
      PendingArcOf(h, file, r);
    }
  }

  lemma EdgesKeepArcs(g: Graph, h: Graph, file: Id)
    requires h.symbols == g.symbols && forall k :: k in g.edges ==> k in h.edges && h.edges[k] == g.edges[k]
    ensures ResolvedArcs(g, file) <= ResolvedArcs(h, file)
  {
    forall a | a in ResolvedArcs(g, file) ensures a in ResolvedArcs(h, file) {
      var k :| k in g.edges && g.edges[k] == file && k.dst in g.symbols
        && a == Arc(k.src, g.symbols[k.dst].name, k.kind);
      ResolvedArcOf(h, file, k);
    }
  }

  lemma ResolvedDropsNoArc(g: Graph, h: Graph, names: set<string>, file: Id)
    requires Sound(g) && Sound(h) && ResolvedNames(g, h, names)
    ensures PendingArcs(g, file) <= Arcs(h, file)
  {
    forall r | r in g.pending && g.pending[r].file == file
      ensures Arc(g.pending[r].src, g.pending[r].dst, g.pending[r].kind) in Arcs(h, file)
    {
      RowKeepsArc(g, h, names, r);
    }
    PendingArcsWithin(g, file, Arcs(h, file));
  }

  /** Resolving moves arcs from one table to the other and loses none. */
  lemma ResolvedKeepsArcs(g: Graph, h: Graph, names: set<string>, file: Id)
    requires Sound(g) && ResolvedNames(g, h, names)
    ensures Arcs(h, file) == Arcs(g, file)
  {
    ResolvedSound(g, h, names);
    ResolvedAddsNoArc(g, h, names, file);
    EdgesKeepArcs(g, h, file);
    ResolvedDropsNoArc(g, h, names, file);
  }

  // One pending row at a time: `rows` are those looked at so far.

  ghost predicate MovedRows(g: Graph, h: Graph, rows: set<Id>) {
    && h.files == g.files && h.symbols == g.symbols
    && (forall r :: r in h.pending <==> r in g.pending && !(r in rows && Movable(g, g.pending[r])))
    && (forall r :: r in h.pending ==> h.pending[r] == g.pending[r])
    && (forall k :: k in g.edges ==> k in h.edges && h.edges[k] == g.edges[k])
    && (forall k :: k in h.edges && k !in g.edges ==> MovedFromRow(g, k, h.edges[k], rows))
    && (forall r :: r in g.pending && r in rows && Movable(g, g.pending[r]) ==> MovedTo(g, h, g.pending[r]))
  }

  predicate Movable(g: Graph, p: PendingEdge) {
    Candidates(g, p.dst, 0, p.language) != {}
  }

  ghost predicate MovedFromRow(g: Graph, k: EdgeKey, file: Id, rows: set<Id>) {
    exists r :: r in rows && r in g.pending && Movable(g, g.pending[r]) && ResolutionOf(g, k, g.pending[r])
      && file == g.pending[r].file
  }

  function RowsNaming(g: Graph, names: set<string>): set<Id> {
    set r | r in g.pending && g.pending[r].dst in names
  }

  lemma MovedRowsResolve(g: Graph, h: Graph, names: set<string>)
    requires MovedRows(g, h, RowsNaming(g, names))
    ensures ResolvedNames(g, h, names)
  {
    forall k | k in h.edges && k !in g.edges ensures MovedFrom(g, k, h.edges[k], names) {
      var r :| r in RowsNaming(g, names) && Movable(g, g.pending[r]) && ResolutionOf(g, k, g.pending[r])
        && h.edges[k] == g.pending[r].file;
      assert Resolvable(g, g.pending[r], names);
    }
  }

  lemma MovedRowsSkip(g: Graph, h: Graph, rows: set<Id>, r: Id)
    requires MovedRows(g, h, rows) && r in g.pending && !Movable(g, g.pending[r])
    ensures MovedRows(g, h, rows + {r})
  {
    forall k | k in h.edges && k !in g.edges ensures MovedFromRow(g, k, h.edges[k], rows + {r}) {
      var x :| x in rows && x in g.pending && Movable(g, g.pending[x]) && ResolutionOf(g, k, g.pending[x])
        && h.edges[k] == g.pending[x].file;
      assert x in rows + {r};
    }
  }

  function WithMoved(h: Graph, r: Id, k: EdgeKey, file: Id): Graph {
    WithEdge(h, k, file).(pending := h.pending - {r})
  }

  lemma MovedRowsMore(g: Graph, h: Graph, rows: set<Id>, r: Id, k: EdgeKey, file: Id)
    requires MovedFromRow(g, k, file, rows)
    ensures MovedFromRow(g, k, file, rows + {r})
  {
    var y :| y in rows && y in g.pending && Movable(g, g.pending[y]) && ResolutionOf(g, k, g.pending[y])
      && file == g.pending[y].file;
    assert y in rows + {r};
  }

  lemma MovedToStays(g: Graph, h: Graph, h': Graph, p: PendingEdge)
    requires MovedTo(g, h, p) && forall k :: k in h.edges ==> k in h'.edges
    ensures MovedTo(g, h', p)
  {}

  lemma MovedRowsMove(g: Graph, h: Graph, rows: set<Id>, r: Id, k: EdgeKey)
    requires MovedRows(g, h, rows) && r in g.pending && r !in rows && ResolutionOf(g, k, g.pending[r])
    ensures MovedRows(g, WithMoved(h, r, k, g.pending[r].file), rows + {r})
  {
    var p := g.pending[r];
    var h' := WithMoved(h, r, k, p.file);
    assert Movable(g, p) && MovedFromRow(g, k, p.file, rows + {r}) by {
      assert r in rows + {r};
    }
    forall x | x in h'.edges && x !in g.edges ensures MovedFromRow(g, x, h'.edges[x], rows + {r}) {
      if x in h.edges {
        MovedRowsMore(g, h, rows, r, x, h.edges[x]);
      }
    }
    forall x | x in g.pending && x in rows + {r} && Movable(g, g.pending[x]) ensures MovedTo(g, h', g.pending[x]) {
      if x in rows {
        MovedToStays(g, h, h', g.pending[x]);
      } else {
        assert k in h'.edges;
      }
    }
  }

  // ---- What re-indexing one file does to the others ----

  /** A caller's edge outlives the clearing of another file exactly when it does not point into that file. */
  lemma SurvivesExactly(g: Graph, file: Id, replacement: File, k: EdgeKey)
    requires Linked(g) && k in g.edges && g.edges[k] != file
    ensures k in Cleared(g, file, replacement).edges <==> g.symbols[k.dst].file != file
  {}

  /** Nothing is put back for the edges that went: the others' pending edges stay as they were. */
  lemma NothingRequeued(g: Graph, file: Id, replacement: File, other: Id)
    requires Linked(g) && other != file
    ensures PendingArcs(Cleared(g, file, replacement), other) == PendingArcs(g, other)
  {
    var h := Cleared(g, file, replacement);
    forall r ensures r in h.pending && h.pending[r].file == other <==> r in g.pending && g.pending[r].file == other {}
  }

  /** Another edge of the same file says the same as `k` and does not lead into `file`. */
  ghost predicate EdgeSays(g: Graph, e: EdgeKey, k: EdgeKey, file: Id)
    requires Linked(g) && k in g.edges
  {
    && e in g.edges && g.edges[e] == g.edges[k] && g.symbols[e.dst].file != file
    && e.src == k.src && e.kind == k.kind && g.symbols[e.dst].name == g.symbols[k.dst].name
  }

  ghost predicate RowSays(g: Graph, r: Id, k: EdgeKey)
    requires Linked(g) && k in g.edges
  {
    && r in g.pending && g.pending[r].file == g.edges[k] && g.pending[r].src == k.src
    && g.pending[r].kind == k.kind && g.pending[r].dst == g.symbols[k.dst].name
  }

  ghost predicate SaidElsewhere(g: Graph, k: EdgeKey, file: Id)
    requires Linked(g) && k in g.edges
  {
    (exists e :: EdgeSays(g, e, k, file)) || (exists r :: RowSays(g, r, k))
  }

  lemma LostExactly(g: Graph, file: Id, replacement: File, k: EdgeKey)
    requires Linked(g) && k in g.edges && g.edges[k] != file && g.symbols[k.dst].file == file
    ensures var h := Cleared(g, file, replacement);
      Arc(k.src, g.symbols[k.dst].name, k.kind) in Arcs(h, g.edges[k]) <==> SaidElsewhere(g, k, file)
  {
    var h, other, a := Cleared(g, file, replacement), g.edges[k], Arc(k.src, g.symbols[k.dst].name, k.kind);
    NothingRequeued(g, file, replacement, other);
    if a in ResolvedArcs(h, other) {
      var e :| e in h.edges && h.edges[e] == other && e.dst in h.symbols
        && a == Arc(e.src, h.symbols[e.dst].name, e.kind);
      SurvivesExactly(g, file, replacement, e);
      assert EdgeSays(g, e, k, file);
    }
    if a in PendingArcs(g, other) {
      var r :| r in g.pending && g.pending[r].file == other
        && a == Arc(g.pending[r].src, g.pending[r].dst, g.pending[r].kind);
      assert RowSays(g, r, k);
    }
    if e :| EdgeSays(g, e, k, file) {
      SurvivesExactly(g, file, replacement, e);
      ResolvedArcOf(h, other, e);
    }
    if r :| RowSays(g, r, k) {
      PendingArcOf(g, other, r);
    }
  }

  /**
   A file keeps all its arcs while another is re-indexed exactly when each of its edges into that file says
   the same as another of its rows that does not lead there.
   */
  lemma OthersKeepArcsExactly(g: Graph, file: Id, replacement: File, other: Id)
    requires Linked(g) && other != file
    ensures var h := Cleared(g, file, replacement);
      && Arcs(h, other) <= Arcs(g, other)
      && (Arcs(h, other) == Arcs(g, other) <==>
          forall k :: k in g.edges && g.edges[k] == other && g.symbols[k.dst].file == file
                      ==> SaidElsewhere(g, k, file))
  {
    var h := Cleared(g, file, replacement);
    NothingRequeued(g, file, replacement, other);
    forall a | a in ResolvedArcs(h, other) ensures a in ResolvedArcs(g, other) {
      var k :| k in h.edges && h.edges[k] == other && k.dst in h.symbols
        && a == Arc(k.src, h.symbols[k.dst].name, k.kind);
      ResolvedArcOf(g, other, k);
    }
    forall k | k in g.edges && g.edges[k] == other
      ensures Arc(k.src, g.symbols[k.dst].name, k.kind) in Arcs(g, other)
      ensures Arc(k.src, g.symbols[k.dst].name, k.kind) in Arcs(h, other)
        <==> (g.symbols[k.dst].file == file ==> SaidElsewhere(g, k, file))
    {
      ResolvedArcOf(g, other, k);
      if g.symbols[k.dst].file != file {
        ResolvedArcOf(h, other, k);
      } else {
        LostExactly(g, file, replacement, k);
      }
    }
  }

  /** FuncA in a.go calls FuncB in b.go. */
  const CALLER := Graph(
    map[1 := File("a.go", "h", "go"), 2 := File("b.go", "h", "go")],
    map[1 := Symbol("FuncA", 1), 2 := Symbol("FuncB", 2)],
    map[EdgeKey(1, 2, Calls) := 1],
    map[]
  )

  lemma CallerCalls()
    ensures Settled(CALLER) && Arcs(CALLER, 1) == {Arc(1, "FuncB", Calls)}
  {
    ResolvedArcOf(CALLER, 1, EdgeKey(1, 2, Calls));
    assert forall a :: a in ResolvedArcs(CALLER, 1) ==> a == Arc(1, "FuncB", Calls);
    assert PendingArcs(CALLER, 1) == {};
  }

  /** Re-indexing the file that is called loses the caller's edge: no row says any more that it calls. */
  lemma CallersAreLost()
    ensures Settled(CALLER) && Arcs(CALLER, 1) == {Arc(1, "FuncB", Calls)}
    ensures Arcs(Cleared(CALLER, 2, File("b.go", "h2", "go")), 1) == {}
  {
    CallerCalls();
    var h := Cleared(CALLER, 2, File("b.go", "h2", "go"));
    assert h.edges == map[] && h.pending == map[];
    assert ResolvedArcs(h, 1) == {} && PendingArcs(h, 1) == {};
  }

  // ---- Why a language is needed ----

  /** A lookup can leave the file's language exactly when there is none to ask for. */
  lemma CrossesExactly(g: Graph, name: string, file: Id)
    requires Linked(g) && file in g.files
    ensures var language := g.files[file].language;
      (exists s :: s in Candidates(g, name, file, language) && LanguageOf(g, s) != Some(language))
      <==> (&& language == "" && InFile(g, name, file) == {}
            && exists s :: s in Named(g, name) && LanguageOf(g, s) != Some(""))
  {
    var language := g.files[file].language;
    forall s | s in InFile(g, name, file) ensures LanguageOf(g, s) == Some(language) {}
  }

  /**
   So an edge from a file without a language would be resolved into another one. The store takes such a file,
   but the pipeline sends none: it skips files whose extension has no language.
   */
  lemma EdgeWithoutLanguageCrosses(h: Graph)
    requires Inserted(
      Graph(map[1 := File("Main", "h", ""), 2 := File("list.py", "h", "python")],
            map[1 := Symbol("Main", 1), 2 := Symbol("List", 2)], map[], map[]),
      h, [ParsedEdge("Main", "List", Imports)], map["Main" := 1], 1, "")
    ensures !SameLanguage(h)
  {
    var g := Graph(map[1 := File("Main", "h", ""), 2 := File("list.py", "h", "python")],
                   map[1 := Symbol("Main", 1), 2 := Symbol("List", 2)], map[], map[]);
    var e := ParsedEdge("Main", "List", Imports);
    assert e in [e];
    assert 2 in Named(g, "List") && InFile(g, "List", 1) == {};
    var targets := Targets(g, "List", map["Main" := 1], 1, "");
    assert 2 in targets && forall d :: d in targets ==> d == 2;
    assert Recorded(g, h, e, map["Main" := 1], 1, "");
    assert EdgeKey(1, 2, Imports) in h.edges;
  }

  // ---- Which symbols a job brings ----

  /** Symbols outside every chunk are skipped. */
  function InChunks(symbols: seq<ParsedSymbol>, chunks: nat): (names: seq<string>) {
    if symbols == [] then []
    else
      var last := symbols[|symbols| - 1];
      InChunks(symbols[..|symbols| - 1], chunks) + (if 0 <= last.chunk < chunks then [last.name] else [])
  }

  /** The names are those of the parsed symbols that lie in a chunk of the job, in order. */
  lemma {:induction false} InChunksExactly(symbols: seq<ParsedSymbol>, chunks: nat)
    ensures forall n :: n in InChunks(symbols, chunks) <==>
              exists s :: s in symbols && 0 <= s.chunk < chunks && s.name == n
  {
    if symbols != [] {
      var init, last := symbols[..|symbols| - 1], symbols[|symbols| - 1];
      InChunksExactly(init, chunks);
      assert symbols == init + [last];
      forall n ensures n in InChunks(symbols, chunks) <==>
          exists s :: s in symbols && 0 <= s.chunk < chunks && s.name == n
      {
        if s :| s in symbols && 0 <= s.chunk < chunks && s.name == n {
          assert s in init || s == last;
        }
        if n in InChunks(init, chunks) {
          var s :| s in init && 0 <= s.chunk < chunks && s.name == n;
          assert s in symbols;
        }
        assert last in symbols;
      }
    }
  }

  // ---- Jobs ----

  /** What one re-index did, stage by stage. */
  datatype Trail = Trail(file: Id, added: map<Id, Symbol>, ids: map<string, Id>, inserted: Graph)

  function RecordOf(job: Job): File {
    File(job.path, job.hash, job.language)
  }

  function Names(added: map<Id, Symbol>): set<string> {
    set s | s in added :: added[s].name
  }

  /** The file's row: the one with this path, or a new one. */
  ghost predicate RowFor(g: Graph, path: string, file: Id) {
    && file > 0
    && (forall f :: f in g.files && g.files[f].path == path ==> f == file)
    && (file in g.files ==> g.files[file].path == path)
  }

  function WithoutEdgesOf(g: Graph, file: Id): Graph {
    g.(edges := map k | k in g.edges && g.edges[k] != file :: g.edges[k])
  }

  /** The stages of a re-index that succeeds. */
  ghost predicate Follows(g: Graph, t: Trail, h: Graph, job: Job) {
    var cleared := Cleared(g, t.file, RecordOf(job));
    var extended := Extended(cleared, t.added);
    && RowFor(g, job.path, t.file)
    && FreshSymbols(cleared, t.file, t.added, Names(t.added)) && (forall s :: s in t.added ==> s !in g.symbols)
    && OwnSymbols(extended, t.ids, t.file) && t.ids.Keys == Names(t.added)
    && Inserted(WithoutEdgesOf(extended, t.file), t.inserted, job.edges, t.ids, t.file, job.language)
    && ResolvedNames(t.inserted, h, Names(t.added))
  }

  /** New rows with ids from `lo` on, one for each name. */
  ghost predicate Numbered(added: map<Id, Symbol>, names: seq<string>, file: Id, lo: Id) {
    && (forall s :: s in added <==> lo <= s < lo + |names|)
    && forall s :: s in added ==> added[s] == Symbol(names[s - lo], file)
  }

  /** The symbols it adds: one for each parsed symbol in a chunk, in order. */
  ghost predicate Brings(t: Trail, job: Job) {
    exists lo :: Numbered(t.added, InChunks(job.symbols, job.chunks), t.file, lo)
  }

  lemma NumberedNames(added: map<Id, Symbol>, names: seq<string>, file: Id, lo: Id)
    requires Numbered(added, names, file, lo)
    ensures Names(added) == set n | n in names
  {
    forall n | n in names ensures n in Names(added) {
      var i :| 0 <= i < |names| && names[i] == n;
      assert lo + i in added && added[lo + i].name == n;
    }
  }

  lemma NoOwnEdges(g: Graph, file: Id)
    requires forall k :: k in g.edges ==> g.edges[k] != file
    ensures WithoutEdgesOf(g, file) == g
  {}

  /** The tables just before the file's edges are inserted. */
  lemma BeforeEdges(g: Graph, t: Trail, h: Graph, job: Job)
    requires Sound(g) && Follows(g, t, h, job) && job.language != ""
    ensures var extended := Extended(Cleared(g, t.file, RecordOf(job)), t.added);
      && Sound(extended) && WithoutEdgesOf(extended, t.file) == extended
      && t.file in extended.files && extended.files[t.file].language == job.language
      && (forall r :: r in extended.pending ==> extended.pending[r].file != t.file)
      && (forall k :: k in extended.edges ==> extended.edges[k] != t.file)
  {
    var cleared := Cleared(g, t.file, RecordOf(job));
    ClearedSound(g, t.file, RecordOf(job));
    ExtendedSound(cleared, t.file, t.added, Names(t.added));
    NoOwnEdges(Extended(cleared, t.added), t.file);
  }

  /**
   A re-index that succeeds keeps the tables sound and makes no pending edge resolvable; those that wait for one
   of its names are resolved, whoever left them.
   */
  lemma ReindexSettles(g: Graph, t: Trail, h: Graph, job: Job, but: set<Wanted>)
    requires Sound(g) && Follows(g, t, h, job) && job.language != ""
    ensures Sound(h) && (UnresolvableBut(g, but) ==> UnresolvableBut(h, Unnamed(but, Names(t.added))))
    ensures Settled(g) ==> Settled(h)
  {
    BeforeEdges(g, t, h, job);
    InsertedSound(Extended(Cleared(g, t.file, RecordOf(job)), t.added), t.inserted, job.edges, t.ids, t.file,
                  job.language);
    ResolvedSound(t.inserted, h, Names(t.added));
    if UnresolvableBut(g, but) {
      ReindexLeaves(g, t, h, job, but);
    }
    if UnresolvableBut(g, {}) {
      ReindexLeaves(g, t, h, job, {});
      assert Unnamed({}, Names(t.added)) == {};
    }
  }

  lemma ReindexLeaves(g: Graph, t: Trail, h: Graph, job: Job, but: set<Wanted>)
    requires Sound(g) && Follows(g, t, h, job) && job.language != "" && UnresolvableBut(g, but)
    ensures UnresolvableBut(h, Unnamed(but, Names(t.added)))
  {
    var cleared := Cleared(g, t.file, RecordOf(job));
    var more := but + Defined(Names(t.added), job.language);
    BeforeEdges(g, t, h, job);
    InsertedSound(Extended(cleared, t.added), t.inserted, job.edges, t.ids, t.file, job.language);
    ClearedUnresolvable(g, t.file, RecordOf(job), but);
    ExtendedUnresolvable(cleared, t.file, t.added, but);
    InsertedUnresolvable(Extended(cleared, t.added), t.inserted, job.edges, t.ids, t.file, job.language, more);
    ResolvedSettles(t.inserted, h, Names(t.added), more);
    assert Unnamed(more, Names(t.added)) == Unnamed(but, Names(t.added));
  }

  // What keeps the two tables apart.

  lemma ClearedApart(g: Graph, file: Id, replacement: File, other: Id)
    requires Linked(g) && ApartIn(g, other)
    ensures ApartIn(Cleared(g, file, replacement), other)
  {
    var h := Cleared(g, file, replacement);
    forall k, r | k in h.edges && h.edges[k] == other && r in h.pending && h.pending[r].file == other
      ensures !SameArc(h, k, h.pending[r])
    {
      assert !SameArc(g, k, g.pending[r]);
    }
  }

  lemma ExtendedApart(g: Graph, file: Id, added: map<Id, Symbol>, other: Id)
    requires Linked(g) && FreshSymbols(g, file, added, Names(added)) && ApartIn(g, other)
    ensures ApartIn(Extended(g, added), other)
  {
    var h := Extended(g, added);
    forall k, r | k in h.edges && h.edges[k] == other && r in h.pending && h.pending[r].file == other
      ensures !SameArc(h, k, h.pending[r])
    {
      assert !SameArc(g, k, g.pending[r]) && h.symbols[k.dst] == g.symbols[k.dst];
    }
  }

  /** An edge is inserted only if its target is found, a pending row only if it is not. */
  lemma InsertedApart(g: Graph, h: Graph, parsed: seq<ParsedEdge>, ids: map<string, Id>, file: Id, language: string)
    requires Sound(g) && OwnSymbols(g, ids, file) && Inserted(g, h, parsed, ids, file, language)
    requires file in g.files && g.files[file].language == language
    requires forall k :: k in g.edges ==> g.edges[k] != file
    requires forall r :: r in g.pending ==> g.pending[r].file != file
    ensures ApartIn(h, file)
  {
    forall k, r | k in h.edges && h.edges[k] == file && r in h.pending && h.pending[r].file == file
      ensures !SameArc(h, k, h.pending[r])
    {
      assert EdgeExplained(g, k, parsed, ids, file, language);
      assert RowExplained(g, h.pending[r], parsed, ids, file, language);
      var e :| e in parsed && e.src in ids && k.src == ids[e.src] && k.kind == e.kind
        && k.dst in Targets(g, e.dst, ids, file, language);
      TargetsInLanguage(g, e.dst, ids, file, language, k.dst);
    }
  }

  lemma InsertedApartElsewhere(g: Graph, h: Graph, parsed: seq<ParsedEdge>, ids: map<string, Id>, file: Id,
                               language: string, other: Id)
    requires Linked(g) && Inserted(g, h, parsed, ids, file, language) && other != file && ApartIn(g, other)
    ensures ApartIn(h, other)
  {
    forall k, r | k in h.edges && h.edges[k] == other && r in h.pending && h.pending[r].file == other
      ensures !SameArc(h, k, h.pending[r])
    {
      assert RowExplained(g, h.pending[r], parsed, ids, file, language) || r in g.pending;
      assert !SameArc(g, k, g.pending[r]);
    }
  }

  /** A row that says what a resolved row said is resolved with it. */
  lemma ResolvedApart(g: Graph, h: Graph, names: set<string>, file: Id)
    requires Sound(g) && ResolvedNames(g, h, names) && ApartIn(g, file)
    ensures ApartIn(h, file)
  {
    forall k, r | k in h.edges && h.edges[k] == file && r in h.pending && h.pending[r].file == file
      ensures !SameArc(h, k, h.pending[r])
    {
      if k in g.edges {
        assert !SameArc(g, k, g.pending[r]);
      } else {
        assert MovedFrom(g, k, h.edges[k], names);
        var x :| x in g.pending && Resolvable(g, g.pending[x], names) && ResolutionOf(g, k, g.pending[x])
          && h.edges[k] == g.pending[x].file;
        ResolutionInLanguage(g, x, k);
        var p, moved := g.pending[r], g.pending[x];
        assert moved.language == p.language && !Resolvable(g, p, names);
        assert p.dst != moved.dst;
      }
    }
  }

  /** A re-index leaves the two tables of its file apart, and those of any other file as they were. */
  lemma ReindexApart(g: Graph, t: Trail, h: Graph, job: Job, other: Id)
    requires Sound(g) && Follows(g, t, h, job) && job.language != ""
    requires other != t.file ==> ApartIn(g, other)
    ensures ApartIn(h, other)
  {
    var cleared := Cleared(g, t.file, RecordOf(job));
    var extended := Extended(cleared, t.added);
    BeforeEdges(g, t, h, job);
    InsertedSound(extended, t.inserted, job.edges, t.ids, t.file, job.language);
    if other == t.file {
      InsertedApart(extended, t.inserted, job.edges, t.ids, t.file, job.language);
    } else {
      ClearedApart(g, t.file, RecordOf(job), other);
      ClearedLinked(g, t.file, RecordOf(job));
      ExtendedApart(cleared, t.file, t.added, other);
      InsertedApartElsewhere(extended, t.inserted, job.edges, t.ids, t.file, job.language, other);
    }
    ResolvedApart(t.inserted, h, Names(t.added), other);
  }

  /**
   Afterwards the file has exactly the arcs of its parse, each in one table, and every other file has those
   it had when the old symbols were gone, whatever failed jobs have left before.
   */
  lemma ReindexArcs(g: Graph, t: Trail, h: Graph, job: Job, other: Id)
    requires Sound(g) && Follows(g, t, h, job) && job.language != "" && other != t.file
    ensures Arcs(h, t.file) == ParsedArcs(job.edges, t.ids)
    ensures ResolvedArcs(h, t.file) !! PendingArcs(h, t.file)
    ensures Arcs(h, other) == Arcs(Cleared(g, t.file, RecordOf(job)), other)
  {
    var cleared := Cleared(g, t.file, RecordOf(job));
    var extended := Extended(cleared, t.added);
    BeforeEdges(g, t, h, job);
    ReindexApart(g, t, h, job, t.file);
    TablesDisjoint(h, t.file);
    InsertedSound(extended, t.inserted, job.edges, t.ids, t.file, job.language);
    InsertedArcs(extended, t.inserted, job.edges, t.ids, t.file, job.language);
    ResolvedKeepsArcs(t.inserted, h, Names(t.added), t.file);
    ResolvedKeepsArcs(t.inserted, h, Names(t.added), other);
    InsertedElsewhere(extended, t.inserted, job.edges, t.ids, t.file, job.language, other);
    ClearedLinked(g, t.file, RecordOf(job));
    ExtendedArcs(cleared, t.file, t.added, Names(t.added), other);
  }

  /**
   Within the file an edge ends at the file's own symbol of the name, whatever other files define: each parsed edge
   between two of its symbols is there, and no edge to one of its names leads elsewhere.
   */
  lemma ReindexOwnTargets(g: Graph, t: Trail, h: Graph, job: Job)
    requires Sound(g) && Follows(g, t, h, job) && job.language != ""
    ensures forall e :: e in job.edges && e.src in t.ids && e.dst in t.ids ==>
              EdgeKey(t.ids[e.src], t.ids[e.dst], e.kind) in h.edges
    ensures forall k :: k in h.edges && h.edges[k] == t.file && k.dst in h.symbols && h.symbols[k.dst].name in t.ids
                        ==> k.dst == t.ids[h.symbols[k.dst].name]
  {
    var extended := Extended(Cleared(g, t.file, RecordOf(job)), t.added);
    BeforeEdges(g, t, h, job);
    InsertedSound(extended, t.inserted, job.edges, t.ids, t.file, job.language);
    forall e | e in job.edges && e.src in t.ids && e.dst in t.ids
      ensures EdgeKey(t.ids[e.src], t.ids[e.dst], e.kind) in h.edges
    {
      OwnTarget(extended, t.inserted, job.edges, t.ids, t.file, job.language, e);
    }
    forall k | k in h.edges && h.edges[k] == t.file && k.dst in h.symbols && h.symbols[k.dst].name in t.ids
      ensures k.dst == t.ids[h.symbols[k.dst].name]
    {
      NotMoved(extended, t.inserted, h, job.edges, t.ids, t.file, job.language, Names(t.added), k);
      OwnEdge(extended, t.inserted, job.edges, t.ids, t.file, job.language, k);
    }
  }

  lemma OwnTarget(g: Graph, h: Graph, parsed: seq<ParsedEdge>, ids: map<string, Id>, file: Id, language: string,
                  e: ParsedEdge)
    requires Inserted(g, h, parsed, ids, file, language) && e in parsed && e.src in ids && e.dst in ids
    ensures EdgeKey(ids[e.src], ids[e.dst], e.kind) in h.edges
  {
    assert Recorded(g, h, e, ids, file, language);
    assert Targets(g, e.dst, ids, file, language) == {ids[e.dst]};
  }

  lemma OwnEdge(g: Graph, h: Graph, parsed: seq<ParsedEdge>, ids: map<string, Id>, file: Id, language: string,
                k: EdgeKey)
    requires Sound(g) && OwnSymbols(g, ids, file) && Inserted(g, h, parsed, ids, file, language)
    requires file in g.files && g.files[file].language == language
    requires k in h.edges && k !in g.edges && k.dst in h.symbols && h.symbols[k.dst].name in ids
    ensures k.dst == ids[h.symbols[k.dst].name]
  {
    assert EdgeExplained(g, k, parsed, ids, file, language);
    var e :| e in parsed && e.src in ids && k.src == ids[e.src] && k.kind == e.kind
      && k.dst in Targets(g, e.dst, ids, file, language);
    TargetsInLanguage(g, e.dst, ids, file, language, k.dst);
  }

  /** A pending row of the file names none of its symbols, so no edge to them comes from one. */
  lemma NotMoved(g: Graph, h: Graph, h': Graph, parsed: seq<ParsedEdge>, ids: map<string, Id>, file: Id,
                 language: string, names: set<string>, k: EdgeKey)
    requires Sound(h) && Inserted(g, h, parsed, ids, file, language) && ResolvedNames(h, h', names)
    requires forall r :: r in g.pending ==> g.pending[r].file != file
    requires k in h'.edges && h'.edges[k] == file && k.dst in h'.symbols
    ensures k in h.edges || h'.symbols[k.dst].name !in ids
  {
    if k !in h.edges {
      assert MovedFrom(h, k, h'.edges[k], names);
      var r :| r in h.pending && Resolvable(h, h.pending[r], names) && ResolutionOf(h, k, h.pending[r])
        && file == h.pending[r].file;
      ResolutionInLanguage(h, r, k);
      assert RowExplained(g, h.pending[r], parsed, ids, file, language);
    }
  }

  /** The other files and their symbols stay, and the file has the job's row and symbols. */
  lemma ReindexKeepsOthers(g: Graph, t: Trail, h: Graph, job: Job)
    requires Sound(g) && Follows(g, t, h, job) && Brings(t, job) && job.language != ""
    ensures h.files == g.files[t.file := RecordOf(job)]
    ensures forall s :: s in g.symbols && g.symbols[s].file != t.file ==> s in h.symbols && h.symbols[s] == g.symbols[s]
    ensures forall s :: s in h.symbols && h.symbols[s].file != t.file ==> s in g.symbols
    ensures forall n :: Has(h, n, t.file) <==> exists p :: p in job.symbols && 0 <= p.chunk < job.chunks && p.name == n
  {
    InChunksExactly(job.symbols, job.chunks);
    ReindexSymbols(g, t, h, job);
    var lo :| Numbered(t.added, InChunks(job.symbols, job.chunks), t.file, lo);
    NumberedNames(t.added, InChunks(job.symbols, job.chunks), t.file, lo);
    forall n ensures Has(h, n, t.file) <==> n in Names(t.added) {
      if s :| s in h.symbols && h.symbols[s] == Symbol(n, t.file) {
        assert s in t.added;
      }
      if s :| s in t.added && t.added[s].name == n {
        assert h.symbols[s] == Symbol(n, t.file);
      }
    }
  }

  lemma ReindexSymbols(g: Graph, t: Trail, h: Graph, job: Job)
    requires Linked(g) && Follows(g, t, h, job)
    ensures h.files == g.files[t.file := RecordOf(job)]
    ensures forall s :: s in h.symbols <==> (s in g.symbols && g.symbols[s].file != t.file) || s in t.added
    ensures forall s :: s in t.added ==> h.symbols[s] == t.added[s] && t.added[s].file == t.file
    ensures forall s :: s in h.symbols && s !in t.added ==> h.symbols[s] == g.symbols[s]
  {
    assert h.symbols == Cleared(g, t.file, RecordOf(job)).symbols + t.added;
  }

  /** Deleting a file touches no row that does not depend on it. */
  lemma DeletedKeepsOthers(g: Graph, file: Id)
    requires Linked(g) && file in g.files
    ensures var h := WithoutFile(g, file);
      && h.files == g.files - {file}
      && (forall s :: s in h.symbols <==> s in g.symbols && g.symbols[s].file != file)
      && (forall k :: k in h.edges <==> k in g.edges && g.symbols[k.src].file != file && g.symbols[k.dst].file != file)
      && (forall r :: r in h.pending <==> r in g.pending && g.pending[r].file != file)
      && (forall s :: s in h.symbols ==> h.symbols[s] == g.symbols[s])
      && (forall k :: k in h.edges ==> h.edges[k] == g.edges[k])
      && (forall r :: r in h.pending ==> h.pending[r] == g.pending[r])
  {}

  /** An edge of another file is still there after the job exactly when it does not lead into the file. */
  lemma CallerSurvivesExactly(g: Graph, t: Trail, h: Graph, job: Job, k: EdgeKey)
    requires Sound(g) && Follows(g, t, h, job) && job.language != ""
    requires k in g.edges && g.edges[k] != t.file
    ensures k in h.edges <==> g.symbols[k.dst].file != t.file
  {
    BeforeEdges(g, t, h, job);
    SurvivesExactly(g, t.file, RecordOf(job), k);
    var extended := Extended(Cleared(g, t.file, RecordOf(job)), t.added);
    InsertedSound(extended, t.inserted, job.edges, t.ids, t.file, job.language);
    ResolvedSound(t.inserted, h, Names(t.added));
    assert k in h.edges ==> k.dst in h.symbols;
  }

  const STAGES: nat := 5

  /** The tables when a stage fails: the row, the deletion of chunks, new chunks, new symbols, the edges. */
  function TablesAt(g: Graph, t: Trail, job: Job, stage: nat): Graph {
    if stage == 0 then g
    else if stage == 1 then Upserted(g, t.file, RecordOf(job))
    else if stage <= 3 then Cleared(g, t.file, RecordOf(job))
    else Extended(Cleared(g, t.file, RecordOf(job)), t.added)
  }

  /** A job that fails partway leaves one of these behind. */
  ghost predicate FailedAt(g: Graph, t: Trail, h: Graph, job: Job) {
    && RowFor(g, job.path, t.file)
    && FreshSymbols(Cleared(g, t.file, RecordOf(job)), t.file, t.added, Names(t.added))
    && exists stage :: 0 <= stage < STAGES && h == TablesAt(g, t, job, stage)
  }

  lemma UpsertedLanguage(g: Graph, file: Id, record: File, s: Id)
    requires Linked(g) && s in g.symbols && (file in g.files ==> g.files[file].language == record.language)
    ensures LanguageOf(Upserted(g, file, record), s) == LanguageOf(g, s)
  {}

  lemma UpsertedLinked(g: Graph, file: Id, record: File)
    requires Linked(g) && file > 0 && (file in g.files ==> g.files[file].language == record.language)
    ensures Linked(Upserted(g, file, record))
  {}

  lemma UpsertedPaths(g: Graph, file: Id, record: File)
    requires PathsUnique(g) && RowFor(g, record.path, file)
    ensures PathsUnique(Upserted(g, file, record))
  {}

  lemma UpsertedSound(g: Graph, file: Id, record: File)
    requires Sound(g) && RowFor(g, record.path, file) && record.language != ""
    requires file in g.files ==> g.files[file].language == record.language
    ensures Sound(Upserted(g, file, record))
  {
    var h := Upserted(g, file, record);
    UpsertedLinked(g, file, record);
    UpsertedPaths(g, file, record);
    forall k | k in h.edges ensures LanguageOf(h, k.src) == LanguageOf(h, k.dst) {
      UpsertedLanguage(g, file, record, k.src);
      UpsertedLanguage(g, file, record, k.dst);
    }
  }

  /** As long as a path keeps its language, that is still sound, though pending edges may be left resolvable. */
  lemma FailedJobSound(g: Graph, t: Trail, h: Graph, job: Job)
    requires Sound(g) && FailedAt(g, t, h, job) && job.language != ""
    requires t.file in g.files ==> g.files[t.file].language == job.language
    ensures Sound(h)
  {
    var stage :| 0 <= stage < STAGES && h == TablesAt(g, t, job, stage);
    if stage == 1 {
      UpsertedSound(g, t.file, RecordOf(job));
    } else if stage > 1 {
      ClearedSound(g, t.file, RecordOf(job));
      if stage == 4 {
        ExtendedSound(Cleared(g, t.file, RecordOf(job)), t.file, t.added, Names(t.added));
      }
    }
  }

  lemma DeletedIsCleared(g: Graph, file: Id)
    requires Linked(g) && file in g.files
    ensures var cleared := Cleared(g, file, g.files[file]);
      && WithoutFile(g, file) == cleared.(files := cleared.files - {file})
      && NothingOf(cleared, file)
  {
    assert g.files[file := g.files[file]] == g.files;
    ClearedLinked(g, file, g.files[file]);
  }

  lemma DroppingRowKeeps(g: Graph, file: Id)
    requires Sound(g) && NothingOf(g, file)
    ensures Sound(g.(files := g.files - {file}))
    ensures forall but :: UnresolvableBut(g, but) ==> UnresolvableBut(g.(files := g.files - {file}), but)
  {
    var h := g.(files := g.files - {file});
    forall s | s in h.symbols ensures LanguageOf(h, s) == LanguageOf(g, s) {}
    assert Linked(h);
    forall but | UnresolvableBut(g, but) ensures UnresolvableBut(h, but) {
      forall r | r in h.pending && WantedBy(h.pending[r]) !in but
        ensures InLanguage(h, h.pending[r].dst, h.pending[r].language) == {}
      {
        ShrinkLanguage(g, h, h.pending[r].dst, h.pending[r].language);
      }
    }
  }

  lemma DeletedSettles(g: Graph, file: Id, but: set<Wanted>)
    requires Sound(g) && file in g.files
    ensures Sound(WithoutFile(g, file))
    ensures UnresolvableBut(g, but) ==> UnresolvableBut(WithoutFile(g, file), but)
  {
    var record := g.files[file];
    DeletedIsCleared(g, file);
    ClearedSound(g, file, record);
    DroppingRowKeeps(Cleared(g, file, record), file);
    if UnresolvableBut(g, but) {
      ClearedUnresolvable(g, file, record, but);
    }
  }

  // ---- Jobs that fail ----

  /** The edge transaction failed: the new symbols are there, the file's edges are not. */
  ghost predicate FailedLate(g: Graph, t: Trail, h: Graph, job: Job) {
    FailedAt(g, t, h, job) && h == Extended(Cleared(g, t.file, RecordOf(job)), t.added)
  }

  /** A pending edge that waits for a symbol that is defined: the next job that defines the name resolves it. */
  ghost predicate LeftResolvable(g: Graph, r: Id) {
    r in g.pending && InLanguage(g, g.pending[r].dst, g.pending[r].language) != {}
  }

  /** After such a failure the edges that wait for the new symbols are left so, besides those that were before. */
  lemma FailureLeavesExactly(g: Graph, t: Trail, h: Graph, job: Job, r: Id)
    requires FailedLate(g, t, h, job)
    ensures var cleared := Cleared(g, t.file, RecordOf(job));
      LeftResolvable(h, r) <==>
        || LeftResolvable(cleared, r)
        || (r in cleared.pending && WantedBy(cleared.pending[r]) in Defined(Names(t.added), job.language))
  {
    if r in h.pending {
      ExtendedResolvable(Cleared(g, t.file, RecordOf(job)), t.file, t.added, r);
    }
  }

  /** So settled tables stay settled exactly when no edge of another file waits for a symbol of the failed job. */
  lemma SettledAfterFailureExactly(g: Graph, t: Trail, h: Graph, job: Job)
    requires Settled(g) && FailedLate(g, t, h, job) && job.language != ""
    requires t.file in g.files ==> g.files[t.file].language == job.language
    ensures Settled(h) <==>
            forall r :: r in g.pending && g.pending[r].file != t.file
                        ==> WantedBy(g.pending[r]) !in Defined(Names(t.added), job.language)
  {
    FailedJobSound(g, t, h, job);
    forall r ensures LeftResolvable(h, r) <==>
        && r in g.pending && g.pending[r].file != t.file
        && WantedBy(g.pending[r]) in Defined(Names(t.added), job.language)
    {
      SettledRowAfterFailure(g, t, h, job, r);
    }
    SettledExactly(h);
  }

  lemma SettledExactly(g: Graph)
    ensures Settled(g) <==> Sound(g) && forall r :: !LeftResolvable(g, r)
  {
    assert forall r :: r in g.pending ==>
        (LeftResolvable(g, r) <==> InLanguage(g, g.pending[r].dst, g.pending[r].language) != {});
  }

  lemma ClearedRows(g: Graph, file: Id, replacement: File, r: Id)
    requires Linked(g)
    ensures r in Cleared(g, file, replacement).pending <==> r in g.pending && g.pending[r].file != file
  {}

  lemma SettledRowAfterFailure(g: Graph, t: Trail, h: Graph, job: Job, r: Id)
    requires Settled(g) && FailedLate(g, t, h, job)
    ensures LeftResolvable(h, r) <==>
            && r in g.pending && g.pending[r].file != t.file
            && WantedBy(g.pending[r]) in Defined(Names(t.added), job.language)
  {
    var cleared := Cleared(g, t.file, RecordOf(job));
    ClearedUnresolvable(g, t.file, RecordOf(job), {});
    ClearedRows(g, t.file, RecordOf(job), r);
    assert r in cleared.pending ==> cleared.pending[r] == g.pending[r] && !LeftResolvable(cleared, r);
    FailureLeavesExactly(g, t, h, job, r);
  }

  /** A settled store, and a job for another file after whose failure an edge is left resolvable. */
  lemma FailureUnsettles()
    ensures var job := Job("b.go", "h", "go", 1, [ParsedSymbol("Foo", 0)], []);
      var g := Graph(map[1 := File("a.go", "h", "go")], map[1 := Symbol("A", 1)], map[],
                     map[1 := PendingEdge(1, 1, "Foo", Calls, "go")]);
      var t := Trail(2, map[2 := Symbol("Foo", 2)], map["Foo" := 2], g);
      var h := Extended(Cleared(g, 2, RecordOf(job)), t.added);
      Settled(g) && FailedLate(g, t, h, job) && !Settled(h) && HashKnown(h, job)
  {
    var job := Job("b.go", "h", "go", 1, [ParsedSymbol("Foo", 0)], []);
    var g := Graph(map[1 := File("a.go", "h", "go")], map[1 := Symbol("A", 1)], map[],
                   map[1 := PendingEdge(1, 1, "Foo", Calls, "go")]);
    var t := Trail(2, map[2 := Symbol("Foo", 2)], map["Foo" := 2], g);
    var h := Extended(Cleared(g, 2, RecordOf(job)), t.added);
    var cleared := Cleared(g, 2, RecordOf(job));
    assert 2 in t.added && t.added[2].name == "Foo" && "Foo" in Names(t.added);
    assert FreshSymbols(cleared, 2, t.added, Names(t.added));
    assert h == TablesAt(g, t, job, 4);
    assert 2 in h.files && h.files[2] == RecordOf(job);
    assert InLanguage(g, "Foo", "go") == {};
    SettledRowAfterFailure(g, t, h, job, 1);
    SettledExactly(h);
  }

  lemma UpsertedUnresolvable(g: Graph, file: Id, record: File, but: set<Wanted>)
    requires Linked(g) && (file in g.files ==> g.files[file].language == record.language)
    requires UnresolvableBut(g, but)
    ensures UnresolvableBut(Upserted(g, file, record), but)
  {
    var h := Upserted(g, file, record);
    forall s | s in h.symbols ensures LanguageOf(h, s) == LanguageOf(g, s) {
      UpsertedLanguage(g, file, record, s);
    }
    forall r | r in h.pending && WantedBy(h.pending[r]) !in but
      ensures InLanguage(h, h.pending[r].dst, h.pending[r].language) == {}
    {
      ShrinkLanguage(g, h, h.pending[r].dst, h.pending[r].language);
    }
  }

  /** What a failed job leaves behind: nothing, unless its symbols were written. */
  function LeftBy(g: Graph, t: Trail, h: Graph, job: Job): set<Wanted> {
    if h == Extended(Cleared(g, t.file, RecordOf(job)), t.added) then Defined(Names(t.added), job.language) else {}
  }

  lemma FailedJobLeaves(g: Graph, t: Trail, h: Graph, job: Job, but: set<Wanted>)
    requires Sound(g) && FailedAt(g, t, h, job) && UnresolvableBut(g, but)
    requires t.file in g.files ==> g.files[t.file].language == job.language
    ensures UnresolvableBut(h, but + LeftBy(g, t, h, job))
  {
    var cleared := Cleared(g, t.file, RecordOf(job));
    ClearedUnresolvable(g, t.file, RecordOf(job), but);
    if h == Extended(cleared, t.added) {
      ExtendedUnresolvable(cleared, t.file, t.added, but);
    } else {
      UpsertedUnresolvable(g, t.file, RecordOf(job), but);
      assert but + {} == but;
    }
  }

  // ---- Histories ----

  datatype WriteJob = Index(job: Job) | Delete(path: string)

  /** The content-hash guard: the row of the path has the job's hash already. */
  predicate HashKnown(g: Graph, job: Job) {
    job.hash != "" && exists f :: f in g.files && g.files[f].path == job.path && g.files[f].hash == job.hash
  }

  /** The guard may also skip a job that is older than the row. */
  predicate MaySkip(g: Graph, job: Job) {
    job.hash != "" && exists f :: f in g.files && g.files[f].path == job.path
  }

  ghost predicate Deleted(g: Graph, h: Graph, path: string) {
    if exists f :: f in g.files && g.files[f].path == path
    then exists f :: f in g.files && g.files[f].path == path && h == WithoutFile(g, f)
    else h == g
  }

  /** An index job that was skipped, carried out, or failed at some stage. */
  ghost predicate Indexed(g: Graph, t: Trail, h: Graph, job: Job) {
    || (h == g && MaySkip(g, job))
    || (!HashKnown(g, job) && ((Follows(g, t, h, job) && Brings(t, job)) || FailedAt(g, t, h, job)))
  }

  /** One job of a history. `left` and `after` say which symbols failed jobs have left to be waited for. */
  ghost predicate Ran(g: Graph, h: Graph, j: WriteJob, left: set<Wanted>, after: set<Wanted>) {
    match j
    case Delete(path) => (Deleted(g, h, path) || h == g) && after == left
    case Index(job) => exists t :: Indexed(g, t, h, job) && Leaves(g, t, h, job, left, after)
  }

  /** A success settles its names; a failure adds what it leaves. A path keeps its language. */
  ghost predicate Leaves(g: Graph, t: Trail, h: Graph, job: Job, left: set<Wanted>, after: set<Wanted>) {
    && job.language != "" && (t.file in g.files ==> g.files[t.file].language == job.language)
    && (|| (h == g && after == left)
        || (Follows(g, t, h, job) && after == Unnamed(left, Names(t.added)))
        || (FailedAt(g, t, h, job) && after == left + LeftBy(g, t, h, job)))
  }

  ghost predicate IsHistory(graphs: seq<Graph>, jobs: seq<WriteJob>, left: seq<set<Wanted>>) {
    && |graphs| == |left| == |jobs| + 1
    && forall i :: 0 <= i < |jobs| ==> Ran(graphs[i], graphs[i + 1], jobs[i], left[i], left[i + 1])
  }

  lemma RanKeeps(g: Graph, h: Graph, j: WriteJob, left: set<Wanted>, after: set<Wanted>)
    requires Sound(g) && UnresolvableBut(g, left) && Ran(g, h, j, left, after)
    ensures Sound(h) && UnresolvableBut(h, after)
  {
    match j
    case Delete(path) =>
      if f :| h != g && f in g.files && g.files[f].path == path && h == WithoutFile(g, f) {
        DeletedSettles(g, f, left);
      }
    case Index(job) =>
      var t :| Indexed(g, t, h, job) && Leaves(g, t, h, job, left, after);
      if Follows(g, t, h, job) && after == Unnamed(left, Names(t.added)) {
        ReindexSettles(g, t, h, job, left);
      } else if FailedAt(g, t, h, job) && after == left + LeftBy(g, t, h, job) {
        FailedJobSound(g, t, h, job);
        FailedJobLeaves(g, t, h, job, left);
      }
  }

  /**
   Every history on a store that began empty, whichever jobs fail: the tables are sound, and no pending edge is
   left resolvable except by a failed job, for a name that no later job has settled.
   */
  lemma {:induction false} HistoryLeaves(graphs: seq<Graph>, jobs: seq<WriteJob>, left: seq<set<Wanted>>)
    requires IsHistory(graphs, jobs, left) && graphs[0] == EMPTY && left[0] == {}
    ensures Sound(graphs[|jobs|]) && UnresolvableBut(graphs[|jobs|], left[|jobs|])
    decreases |jobs|
  {
    if jobs != [] {
      var n := |jobs| - 1;
      assert IsHistory(graphs[..n + 1], jobs[..n], left[..n + 1]);
      HistoryLeaves(graphs[..n + 1], jobs[..n], left[..n + 1]);
      assert Ran(graphs[n], graphs[n + 1], jobs[n], left[n], left[n + 1]);
      RanKeeps(graphs[n], graphs[n + 1], jobs[n], left[n], left[n + 1]);
    }
  }

  lemma FailedApart(g: Graph, t: Trail, h: Graph, job: Job, other: Id)
    requires Sound(g) && FailedAt(g, t, h, job) && ApartIn(g, other)
    ensures ApartIn(h, other)
  {
    var stage :| 0 <= stage < STAGES && h == TablesAt(g, t, job, stage);
    if stage > 1 {
      ClearedApart(g, t.file, RecordOf(job), other);
      ClearedLinked(g, t.file, RecordOf(job));
      ExtendedApart(Cleared(g, t.file, RecordOf(job)), t.file, t.added, other);
    }
  }

  lemma DeletedApart(g: Graph, file: Id, other: Id)
    requires Linked(g) && file in g.files && ApartIn(g, other)
    ensures ApartIn(WithoutFile(g, file), other)
  {
    DeletedIsCleared(g, file);
    ClearedApart(g, file, g.files[file], other);
  }

  lemma RanApart(g: Graph, h: Graph, j: WriteJob, left: set<Wanted>, after: set<Wanted>, other: Id)
    requires Sound(g) && Ran(g, h, j, left, after) && ApartIn(g, other)
    ensures ApartIn(h, other)
  {
    match j
    case Delete(path) =>
      if f :| h != g && f in g.files && g.files[f].path == path && h == WithoutFile(g, f) {
        DeletedApart(g, f, other);
      }
    case Index(job) =>
      if h != g {
        var t :| Indexed(g, t, h, job) && Leaves(g, t, h, job, left, after);
        if Follows(g, t, h, job) {
          ReindexApart(g, t, h, job, other);
        } else {
          FailedApart(g, t, h, job, other);
        }
      }
  }

  /** After every history, whichever jobs fail, an arc of a file is in one table only. */
  lemma {:induction false} HistoryApart(graphs: seq<Graph>, jobs: seq<WriteJob>, left: seq<set<Wanted>>, file: Id)
    requires IsHistory(graphs, jobs, left) && graphs[0] == EMPTY && left[0] == {}
    ensures ApartIn(graphs[|jobs|], file)
    ensures ResolvedArcs(graphs[|jobs|], file) !! PendingArcs(graphs[|jobs|], file)
    decreases |jobs|
  {
    if jobs != [] {
      var n := |jobs| - 1;
      assert IsHistory(graphs[..n + 1], jobs[..n], left[..n + 1]);
      HistoryApart(graphs[..n + 1], jobs[..n], left[..n + 1], file);
      HistoryLeaves(graphs[..n + 1], jobs[..n], left[..n + 1]);
      assert Ran(graphs[n], graphs[n + 1], jobs[n], left[n], left[n + 1]);
      RanApart(graphs[n], graphs[n + 1], jobs[n], left[n], left[n + 1], file);
    }
    TablesDisjoint(graphs[|jobs|], file);
  }

  /** A job that does not fail. */
  ghost predicate JobStep(g: Graph, h: Graph, j: WriteJob) {
    match j
    case Index(job) => job.language != "" && (h == g || exists t :: Follows(g, t, h, job))
    case Delete(path) => Deleted(g, h, path)
  }

  /** Every history without failures: nothing resolvable is left at all. */
  lemma {:induction false} HistorySettled(graphs: seq<Graph>, jobs: seq<WriteJob>)
    requires |graphs| == |jobs| + 1 && graphs[0] == EMPTY
    requires forall i :: 0 <= i < |jobs| ==> JobStep(graphs[i], graphs[i + 1], jobs[i])
    ensures Settled(graphs[|jobs|])
    decreases |jobs|
  {
    if jobs != [] {
      var n := |jobs| - 1;
      HistorySettled(graphs[..n + 1], jobs[..n]);
      var g, h := graphs[n], graphs[n + 1];
      assert JobStep(g, h, jobs[n]);
      if h != g {
        match jobs[n]
        case Index(job) =>
          var t :| Follows(g, t, h, job);
          ReindexSettles(g, t, h, job, {});
        case Delete(path) =>
          var f :| f in g.files && g.files[f].path == path && h == WithoutFile(g, f);
          DeletedSettles(g, f, {});
      }
    }
  }

  // ---- Running a failed job again ----

  /** A failed job that changed the tables has written its hash, so the guard knows it from then on. */
  lemma FailedJobIsKnown(g: Graph, t: Trail, h: Graph, job: Job)
    requires FailedAt(g, t, h, job) && h != g && job.hash != ""
    ensures HashKnown(h, job)
  {
    assert t.file in h.files && h.files[t.file] == RecordOf(job);
  }

  /** No other write to the path: the only jobs for it are the same one again. */
  ghost predicate Spares(j: WriteJob, job: Job) {
    match j
    case Delete(path) => path != job.path
    case Index(other) => other == job || other.path != job.path
  }

  lemma FilesAfter(g: Graph, t: Trail, h: Graph, job: Job)
    requires Follows(g, t, h, job) || FailedAt(g, t, h, job)
    ensures RowFor(g, job.path, t.file)
    ensures h.files == g.files || h.files == g.files[t.file := RecordOf(job)]
  {
    if FailedAt(g, t, h, job) {
      var stage :| 0 <= stage < STAGES && h == TablesAt(g, t, job, stage);
    }
  }

  lemma OtherRowStays(g: Graph, t: Trail, h: Graph, other: Job, f: Id)
    requires Follows(g, t, h, other) || FailedAt(g, t, h, other)
    requires f in g.files && g.files[f].path != other.path
    ensures f in h.files && h.files[f] == g.files[f]
  {
    FilesAfter(g, t, h, other);
  }

  lemma KnownStays(g: Graph, h: Graph, j: WriteJob, job: Job, left: set<Wanted>, after: set<Wanted>)
    requires PathsUnique(g) && HashKnown(g, job) && Spares(j, job) && Ran(g, h, j, left, after)
    ensures HashKnown(h, job) && (j == Index(job) ==> h == g)
  {
    var f :| f in g.files && g.files[f].path == job.path && g.files[f].hash == job.hash;
    match j
    case Delete(path) =>
      if d :| h != g && d in g.files && g.files[d].path == path && h == WithoutFile(g, d) {
        assert d != f;
      }
      assert f in h.files && h.files[f] == g.files[f];
    case Index(other) =>
      if h != g {
        var t :| Indexed(g, t, h, other) && Leaves(g, t, h, other, left, after);
        OtherRowStays(g, t, h, other, f);
      }
  }

  /**
   So a failed job that changed the tables is never made good by sending it again: until its path is written
   or deleted by another job, each repetition is skipped and leaves the tables as they are.
   */
  lemma {:induction false} RepetitionIsSkipped(graphs: seq<Graph>, jobs: seq<WriteJob>, left: seq<set<Wanted>>,
                                               i: nat, job: Job, t: Trail, k: nat)
    requires IsHistory(graphs, jobs, left) && graphs[0] == EMPTY && left[0] == {}
    requires i < k <= |jobs| && jobs[i] == Index(job) && job.hash != ""
    requires FailedAt(graphs[i], t, graphs[i + 1], job) && graphs[i + 1] != graphs[i]
    requires forall m :: i < m < |jobs| ==> Spares(jobs[m], job)
    ensures HashKnown(graphs[k], job)
    ensures k < |jobs| && jobs[k] == Index(job) ==> graphs[k + 1] == graphs[k]
  {
    if k == i + 1 {
      FailedJobIsKnown(graphs[i], t, graphs[k], job);
    } else {
      RepetitionIsSkipped(graphs, jobs, left, i, job, t, k - 1);
      PathsUniqueAt(graphs, jobs, left, k - 1);
      KnownStays(graphs[k - 1], graphs[k], jobs[k - 1], job, left[k - 1], left[k]);
    }
    if k < |jobs| {
      PathsUniqueAt(graphs, jobs, left, k);
      KnownStays(graphs[k], graphs[k + 1], jobs[k], job, left[k], left[k + 1]);
    }
  }

  lemma PathsUniqueAt(graphs: seq<Graph>, jobs: seq<WriteJob>, left: seq<set<Wanted>>, k: nat)
    requires IsHistory(graphs, jobs, left) && graphs[0] == EMPTY && left[0] == {} && k <= |jobs|
    ensures PathsUnique(graphs[k])
  {
    HistoryLeaves(graphs[..k + 1], jobs[..k], left[..k + 1]);
  }
}
