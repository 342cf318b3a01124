/**
 * The system prompt the chat endpoint sends for a hotel: a fixed header that
 * interpolates the hotel's metadata, one `Source k:` block per data source in
 * insertion order, and a fixed closing sentence.
 */
module ChatContext {
  import opened Records
  import Decimal

  /** The indentation the multi-line template literal carries on its continuation lines. */
  const Indent := "                       "

  function Header(h: Hotel): string {
    "You are an AI assistant for " + h.name + ". \n"
    + Indent + "Website: " + h.website + "\n"
    + Indent + "Description: " + h.description + "\n"
    + Indent + "Please answer questions about this hotel based on the following information:"
  }

  const Closing := "\n\nPlease use the above information to answer the user's question accurately."

  /** The text announcing the source at (1-based) position `k`. */
  function SourceLabel(k: nat): string {
    "\n\nSource " + Decimal.DecimalString(k) + ":\n"
  }

  function Block(k: nat, content: string): string {
    SourceLabel(k) + content
  }

  /** The blocks for `srcs`, the first of them numbered `k`. */
  function Blocks(srcs: seq<DataSource>, k: nat): string
    decreases |srcs|
  {
    if srcs == [] then "" else Block(k, srcs[0].content) + Blocks(srcs[1..], k + 1)
  }

  /** The context string for a hotel: a pure function of its metadata and sources. */
  function Context(h: Hotel): string {
    Header(h) + Blocks(h.dataSources, 1) + Closing
  }

  /** Builds the context the way the handler does: start from the header, `+=` one block per source, then the closing. */
  method BuildContext(h: Hotel) returns (context: string)
    ensures context == Context(h)
  {
    context := Header(h);
    var srcs := h.dataSources;
    if |srcs| > 0 {
      var i := 0;
      while i < |srcs|
        invariant 0 <= i <= |srcs|
        invariant context == Header(h) + Blocks(srcs[..i], 1)
      {
        BlocksAppend(srcs[..i], srcs[i], 1);
        assert srcs[..i + 1] == srcs[..i] + [srcs[i]];
        context := context + "\n\nSource " + Decimal.DecimalString(i + 1) + ":\n" + srcs[i].content;
        i := i + 1;
      }
      assert srcs[..i] == srcs;
    }
    context := context + Closing;
  }

  // ---------------------------------------------------------------------------
  // Properties of the block list

  /** Rendering a concatenation of source lists renders each part, the second numbered on from the first. */
  lemma {:induction false} BlocksSplit(a: seq<DataSource>, b: seq<DataSource>, k: nat)
    ensures Blocks(a + b, k) == Blocks(a, k) + Blocks(b, k + |a|)
    decreases |a|
  {
    if a == [] {
      assert a + b == b;
    } else {
      assert (a + b)[1..] == a[1..] + b;
      BlocksSplit(a[1..], b, k + 1);
    }
  }

  /** Appending one source adds exactly one block, numbered after the existing ones, at the end. */
  lemma BlocksAppend(srcs: seq<DataSource>, s: DataSource, k: nat)
    ensures Blocks(srcs + [s], k) == Blocks(srcs, k) + Block(k + |srcs|, s.content)
  {
    BlocksSplit(srcs, [s], k);
    assert Blocks([s], k + |srcs|) == Block(k + |srcs|, s.content) + Blocks([], k + |srcs| + 1);
  }

  /** Concatenation of a list of strings. */
  function Join(parts: seq<string>): string {
    if parts == [] then "" else parts[0] + Join(parts[1..])
  }

  /** The blocks as a list: entry `i` announces position `k + i` and holds the content of `srcs[i]`. */
  function BlockList(srcs: seq<DataSource>, k: nat): seq<string> {
    seq(|srcs|, i requires 0 <= i < |srcs| => Block(k + i, srcs[i].content))
  }

  /** The rendered blocks are exactly the N blocks of `BlockList`, in source order and nothing else. */
  lemma {:induction false} BlocksAreBlockList(srcs: seq<DataSource>, k: nat)
    ensures Blocks(srcs, k) == Join(BlockList(srcs, k))
    decreases |srcs|
  {
    if srcs != [] {
      BlocksAreBlockList(srcs[1..], k + 1);
      assert BlockList(srcs, k)[1..] == BlockList(srcs[1..], k + 1);
    }
  }

  /** The blocks depend on the contents and their order only: the stored `type` does not show. */
  lemma {:induction false} BlocksOnlySeeContents(a: seq<DataSource>, b: seq<DataSource>, k: nat)
    requires |a| == |b|
    requires forall i :: 0 <= i < |a| ==> a[i].content == b[i].content
    ensures Blocks(a, k) == Blocks(b, k)
    decreases |a|
  {
    if a != [] {
      BlocksOnlySeeContents(a[1..], b[1..], k + 1);
    }
  }

  // ---------------------------------------------------------------------------
  // Properties of the context string

  /** Header first, closing sentence last, whatever the sources. */
  lemma ContextFrame(h: Hotel)
    ensures |Context(h)| >= |Header(h)| + |Closing|
    ensures Context(h)[..|Header(h)|] == Header(h)
    ensures Context(h)[|Context(h)| - |Closing|..] == Closing
  {
  }

  /** With no data sources the context is the header followed directly by the closing sentence. */
  lemma ContextWithoutSources(h: Hotel)
    requires h.dataSources == []
    ensures Context(h) == Header(h) + Closing
  {
  }

  /** Block `k + i` of the rendering holds the content of `srcs[i]`, with the earlier sources before it and the later ones after it. */
  lemma BlockAt(srcs: seq<DataSource>, i: nat, k: nat)
    requires i < |srcs|
    ensures Blocks(srcs, k) == Blocks(srcs[..i], k) + Block(k + i, srcs[i].content) + Blocks(srcs[i + 1..], k + i + 1)
  {
    var before, rest := srcs[..i], srcs[i..];
    assert srcs == before + rest;
    BlocksSplit(before, rest, k);
    assert rest[1..] == srcs[i + 1..];
  }

  /**
   * The context holds one block per source, in `dataSources` order: the context is the header,
   * the blocks for the sources before position i, the block `Source i+1:` with the content of
   * source i, the blocks for the sources after it, and the closing sentence.
   */
  lemma SourceBlockInContext(h: Hotel, i: nat)
    requires i < |h.dataSources|
    ensures Context(h) == Header(h) + Blocks(h.dataSources[..i], 1) + Block(i + 1, h.dataSources[i].content)
                          + Blocks(h.dataSources[i + 1..], i + 2) + Closing
  {
    BlockAt(h.dataSources, i, 1);
  }

  /**
   * Appending a data source to a hotel changes its context only by inserting the new
   * block, numbered |dataSources| + 1, between the old blocks and the closing sentence.
   */
  lemma ContextAfterAppend(h: Hotel, s: DataSource)
    ensures var h' := h.(dataSources := h.dataSources + [s]);
      Context(h') == Header(h) + Blocks(h.dataSources, 1)
                     + Block(|h.dataSources| + 1, s.content) + Closing
  {
    BlocksAppend(h.dataSources, s, 1);
  }

  /** Timestamps and source types do not reach the context; metadata and ordered contents determine it. */
  lemma ContextDeterminedByMetadataAndContents(h1: Hotel, h2: Hotel)
    requires h1.name == h2.name && h1.website == h2.website && h1.description == h2.description
    requires |h1.dataSources| == |h2.dataSources|
    requires forall i :: 0 <= i < |h1.dataSources| ==> h1.dataSources[i].content == h2.dataSources[i].content
    ensures Context(h1) == Context(h2)
  {
    BlocksOnlySeeContents(h1.dataSources, h2.dataSources, 1);
  }

  /** The labels of different positions differ, so no two blocks are announced with the same number. */
  lemma LabelsDistinct(j: nat, k: nat)
    requires j != k
    ensures SourceLabel(j) != SourceLabel(k)
  {
    var lj, lk := SourceLabel(j), SourceLabel(k);
    var p := "\n\nSource ";
    assert |p| == 9;
    assert lj == p + Decimal.DecimalString(j) + ":\n";
    assert lk == p + Decimal.DecimalString(k) + ":\n";
    assert lj[9..|lj| - 2] == Decimal.DecimalString(j);
    assert lk[9..|lk| - 2] == Decimal.DecimalString(k);
    if lj == lk {
      Decimal.DecimalInjective(j, k);
    }
  }

  /** A hotel with one text source: its content follows the label `Source 1:` in the context. */
  lemma OneSourceExample()
    ensures var h := Hotel("Bayview Inn", "bayview.test", "Seaside hotel", 0, Wrappers.None,
                           [DataSource(Text, "Check-in is at 3pm.")]);
      Context(h) == Header(h) + "\n\nSource 1:\nCheck-in is at 3pm." + Closing
  {
    assert Decimal.DecimalString(1) == "1";
  }
}
