/** The typewriter reveal of src/hooks/useTypewriter.ts: the displayed text
    grows by `chunkSize` characters per timer tick until it covers the
    content. Timers and their delay are not modelled; a tick is a call. */
module UseTypewriter {
  import opened Types

  function Min(a: int, b: int): int {
    if a <= b then a else b
  }

  /** The displayed text after one run of the effect that ends in a tick:
      the whole content when disabled, otherwise the content up to
      `chunkSize` characters past what is shown, if anything is left. */
  function Next(content: string, displayed: string, enabled: bool, chunkSize: nat): (r: string)
    ensures !enabled ==> r == content
    ensures enabled && |displayed| >= |content| ==> r == displayed
    ensures enabled && |displayed| < |content| ==>
      |r| == Min(|content|, |displayed| + chunkSize) && r == content[..|r|]
  {
    if !enabled then content
    else if |displayed| < |content| then content[..Min(|content|, |displayed| + chunkSize)]
    else displayed
  }

  /** The displayed text after `ticks` ticks on unchanging content. */
  function Reveal(content: string, displayed: string, chunkSize: nat, ticks: nat): string
    decreases ticks
  {
    if ticks == 0 then displayed else Next(content, Reveal(content, displayed, chunkSize, ticks - 1), true, chunkSize)
  }

  /** From nothing, `k` ticks show the first `k * chunkSize` characters. */
  lemma {:induction false} RevealPrefix(content: string, chunkSize: nat, ticks: nat)
    ensures Reveal(content, "", chunkSize, ticks) == content[..Min(|content|, ticks * chunkSize)]
    decreases ticks
  {
    if ticks > 0 {
      RevealPrefix(content, chunkSize, ticks - 1);
      assert (ticks - 1) * chunkSize + chunkSize == ticks * chunkSize;
    }
  }

  /** The whole content is shown after ⌈|content| / chunkSize⌉ ticks, and not
      before. */
  lemma RevealCompletes(content: string, chunkSize: nat)
    requires chunkSize >= 1
    ensures var n := (|content| + chunkSize - 1) / chunkSize;
      && Reveal(content, "", chunkSize, n) == content
      && (n > 0 ==> |Reveal(content, "", chunkSize, n - 1)| < |content|)
  {
    var n := (|content| + chunkSize - 1) / chunkSize;
    CeilBounds(|content|, chunkSize);
    RevealPrefix(content, chunkSize, n);
    if n > 0 {
      RevealPrefix(content, chunkSize, n - 1);
    }
  }

  /** ⌈m / c⌉ chunks of size c cover m, and one chunk fewer does not. */
  lemma CeilBounds(m: nat, c: nat)
    requires c >= 1
    ensures var n := (m + c - 1) / c;
      n * c >= m && (n > 0 ==> (n - 1) * c < m)
  {
    var n := (m + c - 1) / c;
    var rem := (m + c - 1) % c;
    assert m + c - 1 == n * c + rem && 0 <= rem < c;
    assert (n - 1) * c == n * c - c;
  }

  /** On unchanging content a tick never shrinks the text and keeps it a prefix. */
  lemma TickGrowsPrefix(content: string, displayed: string, chunkSize: nat)
    requires |displayed| <= |content| && displayed == content[..|displayed|]
    ensures var r := Next(content, displayed, true, chunkSize);
      |displayed| <= |r| <= |content| && r == content[..|r|] && displayed == r[..|displayed|]
  {
  }

  /** With a positive step, a tick changes the text exactly while it is
      shorter than the content: typing stops when, and only when, all is shown. */
  lemma TickMovesWhileTyping(content: string, displayed: string, chunkSize: nat)
    requires chunkSize >= 1
    ensures Next(content, displayed, true, chunkSize) == displayed <==> |displayed| >= |content|
  {
    if |displayed| < |content| {
      assert |Next(content, displayed, true, chunkSize)| > |displayed|;
    }
  }

  /** The hook's state: its inputs and the displayed text. */
  class Typewriter {
    var content: string
    var enabled: bool
    var displayed: string
    const chunkSize: nat

    /** The displayed text starts empty. */
    constructor(content: string, enabled: bool, chunkSize: nat)
      ensures this.content == content && this.enabled == enabled && this.chunkSize == chunkSize
      ensures displayed == ""
    {
      this.content := content;
      this.enabled := enabled;
      this.chunkSize := chunkSize;
      displayed := "";
    }

    /** `isTyping`. */
    predicate IsTyping()
      reads this
    {
      enabled && |displayed| < |content|
    }

    /** New props from the parent; the displayed text is kept. */
    method SetProps(content: string, enabled: bool)
      modifies this
      ensures this.content == content && this.enabled == enabled && displayed == old(displayed)
    {
      this.content := content;
      this.enabled := enabled;
    }

    /** One run of the reveal effect, with its timer firing. */
    method Tick()
      modifies this
      ensures displayed == Next(content, old(displayed), enabled, chunkSize)
      ensures content == old(content) && enabled == old(enabled)
    {
      if !enabled {
        displayed := content;
        return;
      }
      if |displayed| < |content| {
        displayed := content[..Min(|content|, |displayed| + chunkSize)];
      }
    }

    /** `skipToEnd`. */
    method SkipToEnd()
      modifies this
      ensures displayed == content && !IsTyping()
      ensures content == old(content) && enabled == old(enabled)
    {
      displayed := content;
    }
  }
}
