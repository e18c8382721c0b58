/**
 Which checkpoint tensors a shard loads and under which skeleton keys
 (src/edgeshard/model/weights/safetensors.py, src/edgeshard/model/adapters/base.py,
 src/edgeshard/model/layout.py).

 A block prefix is the text before the index, the index in decimal, and the text after it.
 */
module Weights {
  import opened Options
  import opened Decoder

  // ---------------------------------------------------------------------------
  // Decimal block indices
  // ---------------------------------------------------------------------------

  predicate IsDigit(c: char)
  {
    '0' <= c <= '9'
  }

  function DigitChar(d: nat): (c: char)
    requires d < 10
    ensures IsDigit(c)
  {
    (d + '0' as nat) as char
  }

  function Decimal(n: nat): (s: string)
    ensures s != [] && forall i :: 0 <= i < |s| ==> IsDigit(s[i])
  {
    if n < 10 then [DigitChar(n)] else Decimal(n / 10) + [DigitChar(n % 10)]
  }

  lemma {:induction false} DecimalValue(n: nat)
    ensures Value(Decimal(n)) == n
  {
    if n >= 10 {
      DecimalValue(n / 10);
      assert Decimal(n)[..|Decimal(n)| - 1] == Decimal(n / 10);
    }
  }

  /** The number a digit string denotes. */
  function Value(s: string): nat
    requires forall i :: 0 <= i < |s| ==> IsDigit(s[i])
  {
    if s == [] then 0 else assert IsDigit(s[|s| - 1]); 10 * Value(s[..|s| - 1]) + (s[|s| - 1] as nat - '0' as nat)
  }

  lemma DecimalInjective(n: nat, m: nat)
    requires Decimal(n) == Decimal(m)
    ensures n == m
  {
    DecimalValue(n);
    DecimalValue(m);
  }

  /** The length of the run of digits a string starts with. */
  function DigitRun(s: string): (n: nat)
    ensures n <= |s|
    ensures forall i :: 0 <= i < n ==> IsDigit(s[i])
    ensures n < |s| ==> !IsDigit(s[n])
  {
    if s == [] || !IsDigit(s[0]) then 0 else 1 + DigitRun(s[1..])
  }

  lemma DigitRunUnique(s: string, n: nat)
    requires n < |s| && !IsDigit(s[n]) && forall i :: 0 <= i < n ==> IsDigit(s[i])
    ensures DigitRun(s) == n
  {
  }

  /** Block prefixes with their dot are prefix-free, whatever text follows the index. */
  lemma BlocksPrefixFree(pre: string, post: string, i: nat, j: nat, name: string)
    requires pre + Decimal(i) + post + "." <= name && pre + Decimal(j) + post + "." <= name
    ensures i == j
  {
    var tail, q := name[|pre|..], DigitRun(post + ".");
    assert (post + ".")[|post|] == '.';
    IndexedRun(pre, post, i, name);
    IndexedRun(pre, post, j, name);
    assert |Decimal(i)| == |Decimal(j)|;
    assert Decimal(i) == tail[..|Decimal(i)|] && Decimal(j) == tail[..|Decimal(j)|];
    DecimalInjective(i, j);
  }

  lemma IndexedRun(pre: string, post: string, i: nat, name: string)
    requires pre + Decimal(i) + post + "." <= name
    ensures |pre| <= |name| && DigitRun(name[|pre|..]) == |Decimal(i)| + DigitRun(post + ".")
    ensures |Decimal(i)| <= |name[|pre|..]| && name[|pre|..][..|Decimal(i)|] == Decimal(i)
  {
    var d, rest := Decimal(i), post + ".";
    var tail := name[|pre|..];
    assert pre + d + post + "." == pre + (d + rest);
    assert d + rest <= tail by { PrefixSplit(pre, d + rest, name); }
    assert rest[|post|] == '.';
    var q := DigitRun(rest);
    assert q < |rest| && !IsDigit(rest[q]);
    assert tail[..|d + rest|] == d + rest;
    assert tail[|d| + q] == rest[q];
    forall k | 0 <= k < |d| + q ensures IsDigit(tail[k]) {
      assert tail[k] == (d + rest)[k];
    }
    DigitRunUnique(tail, |d| + q);
  }

  lemma PrefixSplit(a: string, b: string, name: string)
    requires a + b <= name
    ensures |a| <= |name| && a <= name && b <= name[|a|..]
  {
    assert name[..|a|] == (a + b)[..|a|] == a;
    assert name[|a|..][..|b|] == (a + b)[|a|..] == b;
  }

  // ---------------------------------------------------------------------------
  // Layouts, selection and skeleton keys
  // ---------------------------------------------------------------------------

  datatype Layout = Layout(
    numBlocks: nat, pre: string, post: string, embedding: string, norm: string, head: string, tied: bool)

  /** `block_prefix(g) + "."`. */
  function Block(l: Layout, g: nat): string
  {
    l.pre + Decimal(g) + l.post + "."
  }

  predicate Overlap(p: string, q: string)
  {
    p <= q || q <= p
  }

  /** The component prefixes, each with its dot, do not overlap; two blocks never do. */
  ghost predicate LayoutOk(l: Layout)
  {
    && !Overlap(l.embedding + ".", l.norm + ".") && !Overlap(l.embedding + ".", l.head + ".") &&
       !Overlap(l.norm + ".", l.head + ".")
    && forall g :: 0 <= g < l.numBlocks ==>
         !Overlap(Block(l, g), l.embedding + ".") && !Overlap(Block(l, g), l.norm + ".") &&
         !Overlap(Block(l, g), l.head + ".")
  }

  lemma CommonNameOverlaps(p: string, q: string, name: string)
    requires p <= name && q <= name
    ensures Overlap(p, q)
  {
    if |p| <= |q| { assert p == name[..|p|] == q[..|p|]; } else { assert q == name[..|q|] == p[..|q|]; }
  }

  predicate InBlocks(l: Layout, s: ShardSpec, name: string)
  {
    InRange(l, s.start, s.end, name)
  }

  /** `select_shard_tensors` takes this tensor. */
  predicate Selected(l: Layout, s: ShardSpec, name: string)
  {
    || InBlocks(l, s, name)
    || (s.input && l.embedding + "." <= name)
    || (s.output && (l.norm + "." <= name || (if l.tied then l.embedding else l.head) + "." <= name))
  }

  predicate ShardFits(l: Layout, s: ShardSpec)
  {
    s.start < s.end <= l.numBlocks
  }

  function KeysFrom(l: Layout, s: ShardSpec, name: string, g: nat): Option<seq<string>>
    requires g <= s.end
    decreases s.end - g
  {
    if g == s.end then None
    else if Block(l, g) <= name && s.start <= g then Some([Block(l, g - s.start) + name[|Block(l, g)|..]])
    else KeysFrom(l, s, name, g + 1)
  }

  /** `_skeleton_keys`; `None` is its WeightError. */
  function SkeletonKeys(l: Layout, s: ShardSpec, name: string): Option<seq<string>>
    requires s.start <= s.end
  {
    var block := KeysFrom(l, s, name, s.start);
    if block.Some? then block
    else if l.embedding + "." <= name then
      var suffix := name[|l.embedding|..];
      Some((if s.input then [l.embedding + suffix] else []) + (if s.output && l.tied then [l.head + suffix] else []))
    else if s.output && l.norm + "." <= name then Some([name])
    else if s.output && l.head + "." <= name then Some([name])
    else None
  }

  // ---------------------------------------------------------------------------
  // Each tensor belongs to one component
  // ---------------------------------------------------------------------------

  lemma BlockOnly(l: Layout, g: nat, name: string)
    requires LayoutOk(l) && g < l.numBlocks && Block(l, g) <= name
    ensures !(l.embedding + "." <= name) && !(l.norm + "." <= name) && !(l.head + "." <= name)
    ensures forall h :: Block(l, h) <= name ==> h == g
  {
    assert !Overlap(Block(l, g), l.embedding + ".") && !Overlap(Block(l, g), l.norm + ".") &&
           !Overlap(Block(l, g), l.head + ".");
    if l.embedding + "." <= name { CommonNameOverlaps(Block(l, g), l.embedding + ".", name); }
    if l.norm + "." <= name { CommonNameOverlaps(Block(l, g), l.norm + ".", name); }
    if l.head + "." <= name { CommonNameOverlaps(Block(l, g), l.head + ".", name); }
    forall h | Block(l, h) <= name ensures h == g { BlocksPrefixFree(l.pre, l.post, h, g, name); }
  }

  lemma OthersOnly(l: Layout, name: string)
    requires LayoutOk(l)
    ensures l.embedding + "." <= name ==> !(l.norm + "." <= name) && !(l.head + "." <= name)
    ensures l.norm + "." <= name ==> !(l.head + "." <= name)
  {
    if l.embedding + "." <= name && l.norm + "." <= name { CommonNameOverlaps(l.embedding + ".", l.norm + ".", name); }
    if l.embedding + "." <= name && l.head + "." <= name { CommonNameOverlaps(l.embedding + ".", l.head + ".", name); }
    if l.norm + "." <= name && l.head + "." <= name { CommonNameOverlaps(l.norm + ".", l.head + ".", name); }
  }

  // ---------------------------------------------------------------------------
  // No two selected tensors share a skeleton key
  // ---------------------------------------------------------------------------

  lemma {:induction false} KeysFromFinds(l: Layout, s: ShardSpec, name: string, g: nat, h: nat)
    requires s.start <= g <= h < s.end && Block(l, h) <= name && forall k :: Block(l, k) <= name ==> k == h
    ensures KeysFrom(l, s, name, g) == Some([Block(l, h - s.start) + name[|Block(l, h)|..]])
    decreases h - g
  {
    if g < h { KeysFromFinds(l, s, name, g + 1, h); }
  }

  lemma {:induction false} KeysFromFails(l: Layout, s: ShardSpec, name: string, g: nat)
    requires s.start <= g <= s.end && !InBlocks(l, s, name)
    ensures KeysFrom(l, s, name, g) == None
    decreases s.end - g
  {
    if g < s.end { KeysFromFails(l, s, name, g + 1); }
  }

  /** The checkpoint tensor a skeleton key was loaded from. */
  function OriginFrom(l: Layout, s: ShardSpec, key: string, local: nat): Option<string>
    requires s.start <= s.end && local <= s.end - s.start
    decreases s.end - s.start - local
  {
    if local == s.end - s.start then None
    else if Block(l, local) <= key then Some(Block(l, s.start + local) + key[|Block(l, local)|..])
    else OriginFrom(l, s, key, local + 1)
  }

  function Origin(l: Layout, s: ShardSpec, key: string): string
    requires s.start <= s.end
  {
    var block := OriginFrom(l, s, key, 0);
    if block.Some? then block.value
    else if l.tied && l.head + "." <= key then l.embedding + key[|l.head|..]
    else key
  }

  lemma {:induction false} OriginFinds(l: Layout, s: ShardSpec, key: string, i: nat, local: nat)
    requires s.start <= s.end && i <= local < s.end - s.start && Block(l, local) <= key &&
             forall k :: Block(l, k) <= key ==> k == local
    ensures OriginFrom(l, s, key, i) == Some(Block(l, s.start + local) + key[|Block(l, local)|..])
    decreases local - i
  {
    if i < local { OriginFinds(l, s, key, i + 1, local); }
  }

  lemma {:induction false} OriginFails(l: Layout, s: ShardSpec, key: string, i: nat)
    requires s.start <= s.end && i <= s.end - s.start && forall k :: 0 <= k < s.end - s.start ==> !(Block(l, k) <= key)
    ensures OriginFrom(l, s, key, i) == None
    decreases s.end - s.start - i
  {
    if i < s.end - s.start { OriginFails(l, s, key, i + 1); }
  }

  /** A component tensor is under no block prefix. */
  lemma NotInBlocks(l: Layout, name: string, p: string)
    requires LayoutOk(l) && p in {l.embedding, l.norm, l.head} && p + "." <= name
    ensures forall k :: 0 <= k < l.numBlocks ==> !(Block(l, k) <= name)
  {
    forall k | 0 <= k < l.numBlocks ensures !(Block(l, k) <= name) {
      assert !Overlap(Block(l, k), l.embedding + ".") && !Overlap(Block(l, k), l.norm + ".") &&
             !Overlap(Block(l, k), l.head + ".");
      if Block(l, k) <= name { CommonNameOverlaps(Block(l, k), p + ".", name); }
    }
  }

  lemma BlockOrigin(l: Layout, s: ShardSpec, local: nat, suffix: string)
    requires LayoutOk(l) && ShardFits(l, s) && local < s.end - s.start
    ensures Origin(l, s, Block(l, local) + suffix) == Block(l, s.start + local) + suffix
  {
    var key := Block(l, local) + suffix;
    assert Block(l, local) <= key && key[|Block(l, local)|..] == suffix;
    BlockOnly(l, local, key);
    OriginFinds(l, s, key, 0, local);
  }

  /** Global block `g` loads under skeleton index `g - start`, and the key leads back to it. */
  lemma BlockKeys(l: Layout, s: ShardSpec, name: string, g: nat)
    requires LayoutOk(l) && ShardFits(l, s) && s.start <= g < s.end && Block(l, g) <= name
    ensures var key := Block(l, g - s.start) + name[|Block(l, g)|..];
            SkeletonKeys(l, s, name) == Some([key]) && Origin(l, s, key) == name
  {
    BlockOnly(l, g, name);
    KeysFromFinds(l, s, name, s.start, g);
    BlockOrigin(l, s, g - s.start, name[|Block(l, g)|..]);
    assert Block(l, g) + name[|Block(l, g)|..] == name;
  }

  lemma ComponentOrigin(l: Layout, s: ShardSpec, key: string, p: string)
    requires LayoutOk(l) && ShardFits(l, s) && p in {l.embedding, l.norm, l.head} && p + "." <= key
    ensures Origin(l, s, key) == if l.tied && p == l.head then l.embedding + key[|l.head|..] else key
  {
    NotInBlocks(l, key, p);
    OriginFails(l, s, key, 0);
    OthersOnly(l, key);
  }

  lemma Suffix(p: string, q: string, name: string)
    requires p + "." <= name
    ensures |p| <= |name| && q + "." <= q + name[|p|..] && p + name[|p|..] == name
    ensures (q + name[|p|..])[|q|..] == name[|p|..]
  {
    PrefixSplit(p, ".", name);
  }

  /** `_skeleton_keys` accepts the tensor with at least one key, no key twice, and each key leads back to the tensor. */
  ghost predicate LeadsBack(l: Layout, s: ShardSpec, name: string)
    requires s.start <= s.end
  {
    var keys := SkeletonKeys(l, s, name);
    && keys.Some? && keys.value != []
    && (forall i :: 0 <= i < |keys.value| ==> Origin(l, s, keys.value[i]) == name)
    && (forall i, j :: 0 <= i < j < |keys.value| ==> keys.value[i] != keys.value[j])
  }

  lemma OneOrTwoKeys(l: Layout, s: ShardSpec, name: string, a: string, b: string, first: bool, second: bool)
    requires s.start <= s.end && (first || second)
    requires SkeletonKeys(l, s, name) == Some((if first then [a] else []) + (if second then [b] else []))
    requires (first ==> Origin(l, s, a) == name) && (second ==> Origin(l, s, b) == name) && (first && second ==> a != b)
    ensures LeadsBack(l, s, name)
  {
    var keys := (if first then [a] else []) + (if second then [b] else []);
    assert keys == if first && second then [a, b] else if first then [a] else [b];
  }

  lemma EmbeddingKeys(l: Layout, s: ShardSpec, name: string)
    requires LayoutOk(l) && ShardFits(l, s) && l.embedding + "." <= name && (s.input || (s.output && l.tied))
    ensures LeadsBack(l, s, name)
  {
    NotInBlocks(l, name, l.embedding);
    KeysFromFails(l, s, name, s.start);
    Suffix(l.embedding, l.head, name);
    var suffix := name[|l.embedding|..];
    ComponentOrigin(l, s, name, l.embedding);
    ComponentOrigin(l, s, l.head + suffix, l.head);
    OthersOnly(l, name);
    OneOrTwoKeys(l, s, name, name, l.head + suffix, s.input, s.output && l.tied);
  }

  lemma OutputKeys(l: Layout, s: ShardSpec, name: string, p: string)
    requires LayoutOk(l) && ShardFits(l, s) && s.output && p + "." <= name && (p == l.norm || (p == l.head && !l.tied))
    ensures LeadsBack(l, s, name)
  {
    NotInBlocks(l, name, p);
    KeysFromFails(l, s, name, s.start);
    OthersOnly(l, name);
    ComponentOrigin(l, s, name, p);
  }

  /** Every selected tensor gets keys, and its keys determine it. */
  lemma SelectedLeadsBack(l: Layout, s: ShardSpec, name: string)
    requires LayoutOk(l) && ShardFits(l, s) && Selected(l, s, name)
    ensures LeadsBack(l, s, name)
  {
    if InBlocks(l, s, name) {
      var g :| s.start <= g < s.end && Block(l, g) <= name;
      BlockKeys(l, s, name, g);
    } else if l.embedding + "." <= name && (s.input || (s.output && l.tied)) {
      EmbeddingKeys(l, s, name);
    } else if l.norm + "." <= name {
      OutputKeys(l, s, name, l.norm);
    } else {
      OutputKeys(l, s, name, l.head);
    }
  }

  /** No two selected tensors of a shard share a key, tied embeddings included. */
  lemma KeysNeverCollide(l: Layout, s: ShardSpec, name: string, other: string, i: nat, j: nat)
    requires LayoutOk(l) && ShardFits(l, s) && Selected(l, s, name) && Selected(l, s, other)
    requires SkeletonKeys(l, s, name).Some? && SkeletonKeys(l, s, other).Some?
    requires i < |SkeletonKeys(l, s, name).value| && j < |SkeletonKeys(l, s, other).value|
    requires SkeletonKeys(l, s, name).value[i] == SkeletonKeys(l, s, other).value[j]
    ensures name == other && i == j
  {
    SelectedLeadsBack(l, s, name);
    SelectedLeadsBack(l, s, other);
  }

  // ---------------------------------------------------------------------------
  // Each block tensor is loaded by exactly one shard
  // ---------------------------------------------------------------------------

  lemma {:induction false} ShardsAscend(m: Model, specs: seq<ShardSpec>, i: nat, j: nat)
    requires ValidPartition(m, specs) && i < j < |specs|
    ensures specs[i].end <= specs[j].start
    decreases j
  {
    if i < j - 1 { ShardsAscend(m, specs, i, j - 1); }
  }

  lemma {:induction false} BlockHasShard(m: Model, specs: seq<ShardSpec>, g: nat, n: nat) returns (i: nat)
    requires ValidPartition(m, specs) && n < |specs| && g < specs[n].end
    ensures i <= n && specs[i].start <= g < specs[i].end
    decreases n
  {
    if specs[n].start <= g {
      i := n;
    } else {
      i := BlockHasShard(m, specs, g, n - 1);
    }
  }

  lemma BlockSelection(l: Layout, s: ShardSpec, g: nat, name: string)
    requires LayoutOk(l) && ShardFits(l, s) && g < l.numBlocks && Block(l, g) <= name
    ensures Selected(l, s, name) <==> s.start <= g < s.end
  {
    BlockOnly(l, g, name);
  }

  lemma ShardsFit(m: Model, specs: seq<ShardSpec>, l: Layout, i: nat)
    requires ValidPartition(m, specs) && l.numBlocks == m.numBlocks && i < |specs|
    ensures ShardFits(l, specs[i])
  {
    var last := |specs| - 1;
    if i < last { ShardsAscend(m, specs, i, last); }
  }

  /** For every valid partition, a block tensor is selected by one shard and by no other. */
  lemma ExactlyOneShard(m: Model, specs: seq<ShardSpec>, l: Layout, g: nat, name: string) returns (i: nat)
    requires ValidPartition(m, specs) && LayoutOk(l) && l.numBlocks == m.numBlocks
    requires g < l.numBlocks && Block(l, g) <= name
    ensures i < |specs| && Selected(l, specs[i], name)
    ensures forall j :: 0 <= j < |specs| && Selected(l, specs[j], name) ==> j == i
  {
    i := BlockHasShard(m, specs, g, |specs| - 1);
    ShardsFit(m, specs, l, i);
    BlockSelection(l, specs[i], g, name);
    forall j | 0 <= j < |specs| && Selected(l, specs[j], name) ensures j == i {
      ShardsFit(m, specs, l, j);
      BlockSelection(l, specs[j], g, name);
      if i < j { ShardsAscend(m, specs, i, j); }
      if j < i { ShardsAscend(m, specs, j, i); }
    }
  }

  /** The layout of standard decoder models satisfies the condition. */
  lemma StandardLayoutOk(numBlocks: nat, tied: bool)
    ensures LayoutOk(Layout(numBlocks, "model.layers.", "", "model.embed_tokens", "model.norm", "lm_head", tied))
  {
    var l := Layout(numBlocks, "model.layers.", "", "model.embed_tokens", "model.norm", "lm_head", tied);
    Differ(l.embedding + ".", l.norm + ".", 6);
    Differ(l.embedding + ".", l.head + ".", 0);
    Differ(l.norm + ".", l.head + ".", 0);
    forall g | 0 <= g < l.numBlocks
      ensures !Overlap(Block(l, g), l.embedding + ".") && !Overlap(Block(l, g), l.norm + ".") &&
              !Overlap(Block(l, g), l.head + ".")
    {
      var p := Block(l, g);
      assert p[0] == 'm' && p[6] == 'l';
      Differ(p, l.embedding + ".", 6);
      Differ(p, l.norm + ".", 6);
      Differ(p, l.head + ".", 0);
    }
  }

  lemma Differ(p: string, q: string, i: nat)
    requires i < |p| && i < |q| && p[i] != q[i]
    ensures !Overlap(p, q)
  {
  }

  // ---------------------------------------------------------------------------
  // The loops as the source writes them
  // ---------------------------------------------------------------------------

  function Under(names: set<string>, p: string): set<string>
  {
    set n | n in names && p <= n
  }

  /** Every prefix the shard needs has a tensor in the checkpoint. */
  ghost predicate Complete(l: Layout, s: ShardSpec, names: set<string>)
  {
    && HaveBlocks(l, names, s.start, s.end)
    && (s.input ==> Under(names, l.embedding + ".") != {})
    && (s.output ==>
          && Under(names, l.norm + ".") != {}
          && Under(names, (if l.tied then l.embedding else l.head) + ".") != {})
  }

  predicate InRange(l: Layout, start: nat, end: nat, name: string)
  {
    exists g :: start <= g < end && Block(l, g) <= name
  }

  function BlockTensors(l: Layout, names: set<string>, start: nat, end: nat): set<string>
  {
    set n | n in names && InRange(l, start, end, n)
  }

  ghost predicate HaveBlocks(l: Layout, names: set<string>, start: nat, end: nat)
  {
    forall g :: start <= g < end ==> Under(names, Block(l, g)) != {}
  }

  lemma BlocksStep(l: Layout, names: set<string>, start: nat, end: nat)
    requires start <= end
    ensures BlockTensors(l, names, start, end + 1) == BlockTensors(l, names, start, end) + Under(names, Block(l, end))
    ensures HaveBlocks(l, names, start, end + 1) <==>
            HaveBlocks(l, names, start, end) && Under(names, Block(l, end)) != {}
  {
    forall n | n in names ensures InRange(l, start, end + 1, n) <==> InRange(l, start, end, n) || Block(l, end) <= n {
      if InRange(l, start, end, n) {
        var g :| start <= g < end && Block(l, g) <= n;
        assert start <= g < end + 1;
      }
    }
  }

  method SelectBlocks(l: Layout, s: ShardSpec, names: set<string>) returns (r: Option<set<string>>)
    requires s.start <= s.end
    ensures r.Some? <==> HaveBlocks(l, names, s.start, s.end)
    ensures r.Some? ==> r.value == BlockTensors(l, names, s.start, s.end)
  {
    var selected: set<string> := {};
    for g := s.start to s.end
      invariant HaveBlocks(l, names, s.start, g) && selected == BlockTensors(l, names, s.start, g)
    {
      BlocksStep(l, names, s.start, g);
      var matches := Under(names, Block(l, g));
      if matches == {} {
        return None;
      }
      selected := selected + matches;
    }
    r := Some(selected);
  }

  /** `select_shard_tensors`; `None` is a shard out of bounds or a missing component. */
  method SelectShardTensors(l: Layout, s: ShardSpec, names: set<string>) returns (r: Option<set<string>>)
    requires s.start <= s.end
    ensures r.Some? <==> s.end <= l.numBlocks && Complete(l, s, names)
    ensures r.Some? ==> forall n :: n in r.value <==> n in names && Selected(l, s, n)
  {
    if s.end > l.numBlocks {
      return None;
    }
    r := SelectBlocks(l, s, names);
    if r.None? {
      return;
    }
    var selected := r.value;
    if s.input {
      var matches := Under(names, l.embedding + ".");
      if matches == {} {
        return None;
      }
      selected := selected + matches;
    }
    if s.output {
      var norms, heads := Under(names, l.norm + "."), Under(names, (if l.tied then l.embedding else l.head) + ".");
      if norms == {} || heads == {} {
        return None;
      }
      selected := selected + norms + heads;
    }
    r := Some(selected);
  }

  predicate HasKey(l: Layout, s: ShardSpec, name: string, key: string)
    requires s.start <= s.end
  {
    SkeletonKeys(l, s, name).Some? && key in SkeletonKeys(l, s, name).value
  }

  /** What is in the state dict comes from a tensor in `done`, and all their keys are there. */
  ghost predicate Assembled<T(!new)>(l: Layout, s: ShardSpec, done: seq<string>, tensors: string -> T,
                                     state: map<string, T>)
    requires s.start <= s.end
  {
    && (forall key :: key in state ==> Origin(l, s, key) in done && state[key] == tensors(Origin(l, s, key)))
    && (forall name, key :: name in done && HasKey(l, s, name, key) ==> key in state)
  }

  function PutAll<T>(state: map<string, T>, keys: seq<string>, value: T): (r: map<string, T>)
    ensures forall key :: key in r <==> key in state || key in keys
    ensures forall key :: key in r ==> r[key] == if key in keys then value else state[key]
  {
    if keys == [] then state
    else
      assert keys == keys[..|keys| - 1] + [keys[|keys| - 1]];
      PutAll(state, keys[..|keys| - 1], value)[keys[|keys| - 1] := value]
  }

  lemma AssembleStep<T(!new)>(l: Layout, s: ShardSpec, done: seq<string>, tensors: string -> T, state: map<string, T>,
                              name: string)
    requires s.start <= s.end && Assembled(l, s, done, tensors, state) && LeadsBack(l, s, name)
    ensures Assembled(l, s, done + [name], tensors, PutAll(state, SkeletonKeys(l, s, name).value, tensors(name)))
  {
    var keys := SkeletonKeys(l, s, name).value;
    var state' := PutAll(state, keys, tensors(name));
    forall key | key in state' ensures Origin(l, s, key) in done + [name] && state'[key] == tensors(Origin(l, s, key)) {
      if key in keys {
        var i :| 0 <= i < |keys| && keys[i] == key;
        assert Origin(l, s, keys[i]) == name;
      }
    }
    forall other, key | other in done + [name] && HasKey(l, s, other, key) ensures key in state' {
      assert other in done || other == name;
    }
  }

  /** `load_shard`'s assembly: no tensor ever overwrites another's key. */
  method AssembleState<T(!new)>(l: Layout, s: ShardSpec, selected: seq<string>, tensors: string -> T)
    returns (state: map<string, T>)
    requires LayoutOk(l) && ShardFits(l, s) && forall i :: 0 <= i < |selected| ==> Selected(l, s, selected[i])
    ensures Assembled(l, s, selected, tensors, state)
    ensures forall i, key :: 0 <= i < |selected| && HasKey(l, s, selected[i], key) ==>
              key in state && state[key] == tensors(selected[i])
  {
    state := map[];
    for i := 0 to |selected|
      invariant Assembled(l, s, selected[..i], tensors, state)
    {
      SelectedLeadsBack(l, s, selected[i]);
      AssembleStep(l, s, selected[..i], tensors, state, selected[i]);
      assert selected[..i + 1] == selected[..i] + [selected[i]];
      state := StoreKeys(state, SkeletonKeys(l, s, selected[i]).value, tensors(selected[i]));
    }
    assert selected[..|selected|] == selected;
    OriginalsKept(l, s, selected, tensors, state);
  }

  method StoreKeys<T>(before: map<string, T>, keys: seq<string>, tensor: T) returns (state: map<string, T>)
    ensures state == PutAll(before, keys, tensor)
  {
    state := before;
    for k := 0 to |keys|
      invariant state == PutAll(before, keys[..k], tensor)
    {
      state := state[keys[k] := tensor];
      assert keys[..k + 1][..k] == keys[..k];
    }
    assert keys[..|keys|] == keys;
  }

  lemma OriginalsKept<T(!new)>(l: Layout, s: ShardSpec, selected: seq<string>, tensors: string -> T,
                               state: map<string, T>)
    requires LayoutOk(l) && ShardFits(l, s) && forall i :: 0 <= i < |selected| ==> Selected(l, s, selected[i])
    requires Assembled(l, s, selected, tensors, state)
    ensures forall i, key :: 0 <= i < |selected| && HasKey(l, s, selected[i], key) ==>
              key in state && state[key] == tensors(selected[i])
  {
    forall i, key | 0 <= i < |selected| && HasKey(l, s, selected[i], key)
      ensures key in state && state[key] == tensors(selected[i]) {
      SelectedLeadsBack(l, s, selected[i]);
    }
  }

  /** `keep_layer_range`: skeleton layer `i` is global layer `start + i`; `None` is its ValueError. */
  method KeepLayerRange<T>(layers: seq<T>, start: nat, end: nat) returns (kept: Option<seq<T>>)
    requires start <= end
    ensures kept.Some? <==> end <= |layers|
    ensures kept.Some? ==> |kept.value| == end - start && forall i :: 0 <= i < end - start ==>
              kept.value[i] == layers[start + i]
  {
    if |layers| < end {
      return None;
    }
    var rest := layers[..end];
    rest := rest[start..];
    kept := Some(rest);
  }
}
