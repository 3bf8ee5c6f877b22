/** The bulk uploader shared by both connectors: a text buffer and an item
    counter, flushed with one `requests.put` BEFORE the item that finds the
    counter at `max_items_bulk`, and once more, unconditionally, after the
    last item. */
module Bulk {
  import opened PyJson

  // ----- Buffer text -----

  /** The buffer after appending `parts` in order to the empty string. */
  function Concat(parts: seq<string>): string
    decreases |parts|
  {
    if parts == [] then "" else Concat(parts[..|parts| - 1]) + parts[|parts| - 1]
  }

  lemma {:induction false} ConcatCons(a: string, parts: seq<string>)
    ensures Concat([a] + parts) == a + Concat(parts)
    decreases |parts|
  {
    if parts != [] {
      var init := parts[..|parts| - 1];
      assert ([a] + parts)[..|parts|] == [a] + init;
      ConcatCons(a, init);
      assert parts == init + [parts[|parts| - 1]];
    }
  }

  // ----- Batches -----

  function Flatten<T>(bs: seq<seq<T>>): seq<T>
    decreases |bs|
  {
    if bs == [] then [] else bs[0] + Flatten(bs[1..])
  }

  /** The batches the flush-before-append loop sends for the items `xs`,
      starting with `pending` already in the buffer and a limit `k`. */
  function Flushes<T>(xs: seq<T>, k: int, pending: seq<T>): (bs: seq<seq<T>>)
    ensures |bs| >= 1
    decreases |xs|
  {
    if xs == [] then [pending]
    else if |pending| >= k then [pending] + Flushes(xs[1..], k, [xs[0]])
    else Flushes(xs[1..], k, pending + [xs[0]])
  }

  /** The batches that are flushed before an item whose text fails: all
      but the buffer being filled, and that one too when it is full (it is
      flushed before the failing item is rendered). */
  function FlushedBefore<T>(bs: seq<seq<T>>, k: int): seq<seq<T>>
    requires |bs| >= 1
  {
    bs[..|bs| - 1] + (if |bs[|bs| - 1]| >= k then [bs[|bs| - 1]] else [])
  }

  lemma FlushedBeforeCons<T>(b: seq<T>, bs: seq<seq<T>>, k: int)
    requires |bs| >= 1
    ensures FlushedBefore([b] + bs, k) == [b] + FlushedBefore(bs, k)
  {
    assert ([b] + bs)[..|bs|] == [b] + bs[..|bs| - 1];
  }

  /** The batches, concatenated in send order, are the input in its order. */
  lemma {:induction false} FlushesPreserveOrder<T>(xs: seq<T>, k: int, pending: seq<T>)
    ensures Flatten(Flushes(xs, k, pending)) == pending + xs
    decreases |xs|
  {
    if xs != [] {
      assert xs == [xs[0]] + xs[1..];
      FlushesPreserveOrder(xs[1..], k, if |pending| >= k then [xs[0]] else pending + [xs[0]]);
    }
  }

  /** With a positive limit every batch holds at most `k` items, every batch
      but the last exactly `k`, and the last one is empty only when the
      whole input is. */
  lemma {:induction false} FlushesBounded<T>(xs: seq<T>, k: int, pending: seq<T>)
    requires k >= 1 && |pending| <= k
    ensures var bs := Flushes(xs, k, pending);
      && (forall i :: 0 <= i < |bs| ==> |bs[i]| <= k)
      && (forall i :: 0 <= i < |bs| - 1 ==> |bs[i]| == k)
      && (|bs[|bs| - 1]| == 0 <==> pending + xs == [])
    decreases |xs|
  {
    if xs != [] {
      FlushesBounded(xs[1..], k, if |pending| >= k then [xs[0]] else pending + [xs[0]]);
    }
  }

  /** Every item lands in exactly one batch, so the batch sizes add up. */
  lemma {:induction false} FlattenLength<T>(bs: seq<seq<T>>, k: nat)
    requires |bs| >= 1
    requires forall i :: 0 <= i < |bs| - 1 ==> |bs[i]| == k
    ensures |Flatten(bs)| == (|bs| - 1) * k + |bs[|bs| - 1]|
    decreases |bs|
  {
    if |bs| > 1 {
      FlattenLength(bs[1..], k);
    }
  }

  /** The number of puts m is max(1, ceil(n / k)) for n items and limit
      k >= 1: one put for no items, otherwise (m - 1) * k < n <= m * k. */
  lemma FlushesCount<T>(xs: seq<T>, k: int)
    requires k >= 1
    ensures var m := |Flushes(xs, k, [])|;
      (xs == [] ==> m == 1) && (xs != [] ==> (m - 1) * k < |xs| <= m * k)
  {
    var bs := Flushes(xs, k, []);
    FlushesBounded(xs, k, []);
    FlushesPreserveOrder(xs, k, []);
    FlattenLength(bs, k);
    if xs != [] {
      var m, last := |bs|, |bs[|bs| - 1]|;
      assert |xs| == (m - 1) * k + last && 1 <= last <= k;
      assert m * k == (m - 1) * k + k;
    }
  }

  function Singletons<T>(xs: seq<T>): (bs: seq<seq<T>>)
    ensures |bs| == |xs| && forall i :: 0 <= i < |xs| ==> bs[i] == [xs[i]]
  {
    seq(|xs|, i requires 0 <= i < |xs| => [xs[i]])
  }

  /** With a limit of at most 1 every item travels alone; a limit of 0 or
      less (the counter starts at 0 and `0 >= k` holds) also sends an empty
      batch before the first item. */
  lemma {:induction false} FlushesSmallLimit<T>(xs: seq<T>, k: int)
    requires k <= 1
    ensures k == 1 && xs != [] ==> Flushes(xs, k, []) == Singletons(xs)
    ensures k <= 0 && xs != [] ==> Flushes(xs, k, []) == [[]] + Singletons(xs)
  {
    if xs != [] {
      SingletonsFrom(xs[1..], k, xs[0]);
      assert [xs[0]] + xs[1..] == xs;
      if k == 1 {
        assert [] + [xs[0]] == [xs[0]];
        assert Flushes(xs, k, []) == Flushes(xs[1..], k, [xs[0]]);
      } else {
        assert Flushes(xs, k, []) == [[]] + Flushes(xs[1..], k, [xs[0]]);
      }
    }
  }

  lemma {:induction false} SingletonsFrom<T>(xs: seq<T>, k: int, x: T)
    requires k <= 1
    ensures Flushes(xs, k, [x]) == Singletons([x] + xs)
    decreases |xs|
  {
    if xs != [] {
      SingletonsFrom(xs[1..], k, xs[0]);
      assert [xs[0]] + xs[1..] == xs;
    }
  }

  // ----- ASCII sanitising (`s.encode('ascii', 'ignore')`) -----

  predicate IsAscii(s: string) {
    forall i :: 0 <= i < |s| ==> s[i] as int < 128
  }

  /** `s` with every character outside ASCII removed. */
  function AsciiOnly(s: string): (r: string)
    decreases |s|
  {
    if s == [] then ""
    else if s[0] as int < 128 then [s[0]] + AsciiOnly(s[1..])
    else AsciiOnly(s[1..])
  }

  predicate IsSubsequence(a: string, b: string)
    decreases |b|
  {
    a == [] || (b != [] && (if a[0] == b[0] then IsSubsequence(a[1..], b[1..]) else IsSubsequence(a, b[1..])))
  }

  /** The sanitised text is all ASCII, keeps the original's ASCII characters
      in order, and is the original itself when that was already ASCII. */
  lemma {:induction false} AsciiOnlyProperties(s: string)
    ensures IsAscii(AsciiOnly(s))
    ensures IsSubsequence(AsciiOnly(s), s)
    ensures IsAscii(s) ==> AsciiOnly(s) == s
    decreases |s|
  {
    if s != [] {
      AsciiOnlyProperties(s[1..]);
      assert IsAscii(s) ==> IsAscii(s[1..]) by {
        if IsAscii(s) {
          forall i | 0 <= i < |s[1..]| ensures s[1..][i] as int < 128 {
            assert s[1..][i] == s[i + 1];
          }
        }
      }
    }
  }

  lemma {:induction false} ConcatAscii(parts: seq<string>)
    requires forall i :: 0 <= i < |parts| ==> IsAscii(parts[i])
    ensures IsAscii(Concat(parts))
    decreases |parts|
  {
    if parts != [] {
      ConcatAscii(parts[..|parts| - 1]);
    }
  }

  // ----- Sending -----

  /** What a connector does when `requests.put` raises `UnicodeEncodeError`:
      Bugzilla lets it propagate; Gerrit evaluates its log message (`log`,
      which may itself raise) and puts the ASCII-sanitised body. */
  datatype Policy<!T> = FailOnEncode | RetryAscii(log: T -> Result<()>)

  /** The body that reaches the store for one flush, or the exception raised.
      `put` raises `UnicodeEncodeError` exactly when the body is not ASCII;
      `ctx` is the review the retry handler's log message reads. */
  function Deliver<T>(policy: Policy<T>, body: string, ctx: Option<T>): (r: Result<string>)
  {
    if IsAscii(body) then Ok(body)
    else match policy
      case FailOnEncode => Err(UnicodeEncodeError)
      case RetryAscii(log) =>
        match ctx
        case None => Err(NameError)
        case Some(x) =>
          match log(x)
          case Err(e) => Err(e)
          case Ok(_) => Ok(AsciiOnly(body))
  }

  datatype Outcome = Completed | Aborted(error: PyError)

  /** The bodies that reached the store, in order, and how the run ended. */
  datatype Trace = Trace(sent: seq<string>, outcome: Outcome)

  /** The batching loop over `items`, whose bulk texts (or the exception
      their enrichment raises) are `texts`, with `pending` in the buffer and
      `last` the item the loop variable currently holds. */
  function Run<T>(items: seq<T>, texts: seq<Result<string>>, policy: Policy<T>, k: int,
                  pending: seq<string>, last: Option<T>): Trace
    requires |texts| == |items|
    decreases |items|
  {
    if items == [] then
      match Deliver(policy, Concat(pending), last)
      case Ok(b) => Trace([b], Completed)
      case Err(e) => Trace([], Aborted(e))
    else
      var flush := if |pending| >= k then Deliver(policy, Concat(pending), Some(items[0])) else Ok("");
      if flush.Err? then Trace([], Aborted(flush.error))
      else
        var out := if |pending| >= k then [flush.value] else [];
        var buf := if |pending| >= k then [] else pending;
        match texts[0]
        case Err(e) => Trace(out, Aborted(e))
        case Ok(t) =>
          var rest := Run(items[1..], texts[1..], policy, k, buf + [t], Some(items[0]));
          Trace(out + rest.sent, rest.outcome)
  }

  /** A run over no items puts the empty buffer, which is ASCII, so the
      retry handler (and its `NameError` on the unbound loop variable) is
      never reached. Every later flush has the loop variable bound. */
  lemma EmptyRunSendsEmptyBody<T>(policy: Policy<T>, k: int)
    ensures Run([], [], policy, k, [], None) == Trace([""], Completed)
  {
    assert Concat([]) == "";
  }

  /** The body of each batch, sanitised when `sanitise` holds. */
  function Bodies(bs: seq<seq<string>>, sanitise: bool): (r: seq<string>)
    ensures |r| == |bs|
    ensures forall i :: 0 <= i < |bs| ==> r[i] == (if sanitise then AsciiOnly(Concat(bs[i])) else Concat(bs[i]))
  {
    seq(|bs|, i requires 0 <= i < |bs| => if sanitise then AsciiOnly(Concat(bs[i])) else Concat(bs[i]))
  }

  lemma BodiesCons(b: seq<string>, bs: seq<seq<string>>, sanitise: bool)
    ensures Bodies([b] + bs, sanitise) == Bodies([b], sanitise) + Bodies(bs, sanitise)
  {
    assert forall i :: 0 <= i < |bs| ==> ([b] + bs)[i + 1] == bs[i];
  }

  /** A flush succeeds when its body is ASCII, or when the policy retries and
      the handler's log message can be evaluated. */
  lemma DeliverAccepted<T>(policy: Policy<T>, body: string, ctx: Option<T>)
    requires IsAscii(body) || (policy.RetryAscii? && ctx.Some? && policy.log(ctx.value).Ok?)
    ensures Deliver(policy, body, ctx) == Ok(if policy.RetryAscii? then AsciiOnly(body) else body)
  {
    AsciiOnlyProperties(body);
  }

  /** One iteration of the loop, when its flush and its item's text succeed. */
  lemma RunStep<T>(items: seq<T>, texts: seq<Result<string>>, policy: Policy<T>, k: int,
                   pending: seq<string>, last: Option<T>)
    requires |texts| == |items| && items != [] && texts[0].Ok?
    requires |pending| >= k ==> Deliver(policy, Concat(pending), Some(items[0])).Ok?
    ensures var flushes := |pending| >= k;
      var rest := Run(items[1..], texts[1..], policy, k,
                      (if flushes then [] else pending) + [texts[0].value], Some(items[0]));
      Run(items, texts, policy, k, pending, last)
      == Trace((if flushes then [Deliver(policy, Concat(pending), Some(items[0])).value] else []) + rest.sent,
               rest.outcome)
  {
  }

  /** The flush before an item fails: nothing more is sent. */
  lemma RunFlushFails<T>(items: seq<T>, texts: seq<Result<string>>, policy: Policy<T>, k: int,
                         pending: seq<string>, last: Option<T>)
    requires |texts| == |items| && items != [] && |pending| >= k
    requires Deliver(policy, Concat(pending), Some(items[0])).Err?
    ensures Run(items, texts, policy, k, pending, last)
         == Trace([], Aborted(Deliver(policy, Concat(pending), Some(items[0])).error))
  {
  }

  /** An item's text fails after its flush (if any) succeeded. */
  lemma RunTextFails<T>(items: seq<T>, texts: seq<Result<string>>, policy: Policy<T>, k: int,
                        pending: seq<string>, last: Option<T>)
    requires |texts| == |items| && items != [] && texts[0].Err?
    requires |pending| >= k ==> Deliver(policy, Concat(pending), Some(items[0])).Ok?
    ensures Run(items, texts, policy, k, pending, last)
         == Trace((if |pending| >= k then [Deliver(policy, Concat(pending), Some(items[0])).value] else []),
                  Aborted(texts[0].error))
  {
  }

  predicate Produced(texts: seq<Result<string>>, lines: seq<string>) {
    |texts| == |lines| && forall i :: 0 <= i < |texts| ==> texts[i] == Ok(lines[i])
  }

  predicate AllAscii(lines: seq<string>) {
    forall i :: 0 <= i < |lines| ==> IsAscii(lines[i])
  }

  predicate AllLogged<T>(policy: Policy<T>, items: seq<T>)
    requires policy.RetryAscii?
  {
    forall i :: 0 <= i < |items| ==> policy.log(items[i]).Ok?
  }

  /** Under `RetryAscii`, the handler's log message evaluates for every
      review the loop variable will hold, and the buffer is empty before the
      loop has bound one. */
  ghost predicate Logged<T>(items: seq<T>, policy: Policy<T>, pending: seq<string>, last: Option<T>) {
    && policy.RetryAscii?
    && AllLogged(policy, items) && (last.Some? ==> policy.log(last.value).Ok?) && (last.None? ==> pending == [])
  }

  /** The conditions under which no put fails for good: every text is
      produced, and either every text (and the buffer) is ASCII, so no put
      raises, or the policy retries and its log message always evaluates. */
  ghost predicate Deliverable<T>(items: seq<T>, texts: seq<Result<string>>, lines: seq<string>,
                                 policy: Policy<T>, pending: seq<string>, last: Option<T>)
  {
    && |items| == |texts| && Produced(texts, lines)
    && ((AllAscii(lines) && AllAscii(pending)) || Logged(items, policy, pending, last))
  }

  /** The conditions carry over to the run from the next item. */
  lemma DeliverableTail<T>(items: seq<T>, texts: seq<Result<string>>, lines: seq<string>,
                           policy: Policy<T>, k: int, pending: seq<string>, last: Option<T>)
    requires Deliverable(items, texts, lines, policy, pending, last) && items != []
    ensures texts[0] == Ok(lines[0])
    ensures Deliverable(items[1..], texts[1..], lines[1..], policy,
                        (if |pending| >= k then [] else pending) + [lines[0]], Some(items[0]))
  {
    assert texts[0] == Ok(lines[0]);
    assert Produced(texts[1..], lines[1..]) by {
      assert forall i :: 0 <= i < |texts[1..]| ==> texts[1..][i] == texts[i + 1];
    }
    if AllAscii(lines) && AllAscii(pending) {
      var pending' := (if |pending| >= k then [] else pending) + [lines[0]];
      assert AllAscii(pending') && AllAscii(lines[1..]) by {
        assert forall i :: 0 <= i < |lines[1..]| ==> lines[1..][i] == lines[i + 1];
      }
    } else {
      assert policy.log(items[0]).Ok?;
      assert AllLogged(policy, items[1..]) by {
        assert forall i :: 0 <= i < |items[1..]| ==> items[1..][i] == items[i + 1];
      }
    }
  }

  /** The flush before an item, under the conditions, sends the buffer's body. */
  lemma DeliverableFlush<T>(items: seq<T>, texts: seq<Result<string>>, lines: seq<string>,
                            policy: Policy<T>, pending: seq<string>, last: Option<T>)
    requires Deliverable(items, texts, lines, policy, pending, last) && items != []
    ensures Deliver(policy, Concat(pending), Some(items[0])) == Ok(Bodies([pending], policy.RetryAscii?)[0])
  {
    if AllAscii(pending) {
      ConcatAscii(pending);
    }
    DeliverAccepted(policy, Concat(pending), Some(items[0]));
  }

  /** One step of `RunSendsFlushes`, given its claim for the run from the next item. */
  lemma SendsFlushesStep<T>(items: seq<T>, texts: seq<Result<string>>, lines: seq<string>,
                            policy: Policy<T>, k: int, pending: seq<string>, last: Option<T>)
    requires Deliverable(items, texts, lines, policy, pending, last) && items != [] && texts[0] == Ok(lines[0])
    requires var pending' := (if |pending| >= k then [] else pending) + [lines[0]];
      Run(items[1..], texts[1..], policy, k, pending', Some(items[0]))
      == Trace(Bodies(Flushes(lines[1..], k, pending'), policy.RetryAscii?), Completed)
    ensures Run(items, texts, policy, k, pending, last)
         == Trace(Bodies(Flushes(lines, k, pending), policy.RetryAscii?), Completed)
  {
    var sanitise := policy.RetryAscii?;
    var pending' := (if |pending| >= k then [] else pending) + [lines[0]];
    var rest := Flushes(lines[1..], k, pending');
    if |pending| >= k {
      DeliverableFlush(items, texts, lines, policy, pending, last);
      RunStep(items, texts, policy, k, pending, last);
      assert lines != [] && pending' == [lines[0]];
      assert Flushes(lines, k, pending) == [pending] + rest;
      BodiesCons(pending, rest, sanitise);
    } else {
      RunStep(items, texts, policy, k, pending, last);
      assert Flushes(lines, k, pending) == rest;
    }
  }

  /** When every item's text is produced and no put fails for good, the run
      sends exactly the batches of `Flushes`, in order, and completes. No put
      fails for good when every text is ASCII, under either policy, or when
      the policy retries and the handler's log message evaluates for every
      review. Under `RetryAscii` every body is sent sanitised, which is a
      no-op on ASCII bodies. */
  lemma {:induction false} RunSendsFlushes<T>(items: seq<T>, texts: seq<Result<string>>, lines: seq<string>,
                                              policy: Policy<T>, k: int, pending: seq<string>, last: Option<T>)
    requires |items| == |texts| && Produced(texts, lines)
    requires (AllAscii(lines) && AllAscii(pending)) || Logged(items, policy, pending, last)
    ensures Run(items, texts, policy, k, pending, last)
         == Trace(Bodies(Flushes(lines, k, pending), policy.RetryAscii?), Completed)
    decreases |items|
  {
    if items == [] {
      if AllAscii(pending) {
        ConcatAscii(pending);
      }
      DeliverAccepted(policy, Concat(pending), last);
    } else {
      DeliverableTail(items, texts, lines, policy, k, pending, last);
      var pending' := (if |pending| >= k then [] else pending) + [lines[0]];
      RunSendsFlushes(items[1..], texts[1..], lines[1..], policy, k, pending', Some(items[0]));
      SendsFlushesStep(items, texts, lines, policy, k, pending, last);
    }
  }

  /** The item the loop is on fails: the flush before it still happens. */
  lemma RunAbortHere<T>(items: seq<T>, texts: seq<Result<string>>, k: int, pending: seq<string>, last: Option<T>)
    requires |texts| == |items| && items != [] && texts[0].Err? && AllAscii(pending)
    ensures Run(items, texts, FailOnEncode, k, pending, last)
         == Trace(if |pending| >= k then [Concat(pending)] else [], Aborted(texts[0].error))
  {
    ConcatAscii(pending);
  }

  /** When the text of item `j` fails (after all earlier ones succeeded, all
      ASCII, under `FailOnEncode`), the run aborts with that exception and
      the store has received only the batches flushed before item `j`: the
      partially filled buffer is lost. */
  lemma {:induction false} RunAbortLosesBuffer<T>(items: seq<T>, texts: seq<Result<string>>, lines: seq<string>,
                                                  k: int, j: nat, pending: seq<string>, last: Option<T>)
    requires |texts| == |items| && j < |items| && Produced(texts[..j], lines)
    requires AllAscii(lines) && AllAscii(pending)
    requires texts[j].Err?
    ensures Run(items, texts, FailOnEncode, k, pending, last)
         == Trace(Bodies(FlushedBefore(Flushes(lines, k, pending), k), false), Aborted(texts[j].error))
    decreases |items|
  {
    if j == 0 {
      RunAbortHere(items, texts, k, pending, last);
      assert lines == [];
      assert Flushes(lines, k, pending) == [pending];
    } else {
      var pending' := (if |pending| >= k then [] else pending) + [lines[0]];
      AbortTail(items, texts, lines, k, j, pending);
      RunAbortLosesBuffer(items[1..], texts[1..], lines[1..], k, j - 1, pending', Some(items[0]));
      AbortStep(items, texts, lines, k, j, pending, last);
    }
  }

  /** The conditions of `RunAbortLosesBuffer` carry over to the next item. */
  lemma AbortTail<T>(items: seq<T>, texts: seq<Result<string>>, lines: seq<string>,
                     k: int, j: nat, pending: seq<string>)
    requires |texts| == |items| && 0 < j < |items| && Produced(texts[..j], lines)
    requires AllAscii(lines) && AllAscii(pending)
    ensures texts[0] == Ok(lines[0])
    ensures var pending' := (if |pending| >= k then [] else pending) + [lines[0]];
      Produced(texts[1..][..j - 1], lines[1..]) && AllAscii(lines[1..]) && AllAscii(pending')
  {
    assert texts[0] == texts[..j][0] == Ok(lines[0]);
    assert texts[1..][..j - 1] == texts[..j][1..];
    assert forall i :: 0 <= i < j - 1 ==> texts[..j][1..][i] == texts[..j][i + 1];
    assert forall i :: 0 <= i < j - 1 ==> lines[1..][i] == lines[i + 1];
  }

  /** A full buffer flushed ahead of the batches `bs`. */
  lemma FlushedBodies(pending: seq<string>, bs: seq<seq<string>>, k: int)
    requires |bs| >= 1
    ensures [Concat(pending)] + Bodies(FlushedBefore(bs, k), false) == Bodies(FlushedBefore([pending] + bs, k), false)
  {
    FlushedBeforeCons(pending, bs, k);
    BodiesCons(pending, FlushedBefore(bs, k), false);
  }

  /** One step of `RunAbortLosesBuffer`, given its claim for the run from the next item. */
  lemma AbortStep<T>(items: seq<T>, texts: seq<Result<string>>, lines: seq<string>,
                     k: int, j: nat, pending: seq<string>, last: Option<T>)
    requires |texts| == |items| && 0 < j < |items| && |lines| == j && texts[0] == Ok(lines[0])
    requires AllAscii(pending) && texts[j].Err?
    requires var pending' := (if |pending| >= k then [] else pending) + [lines[0]];
      Run(items[1..], texts[1..], FailOnEncode, k, pending', Some(items[0]))
      == Trace(Bodies(FlushedBefore(Flushes(lines[1..], k, pending'), k), false), Aborted(texts[1..][j - 1].error))
    ensures Run(items, texts, FailOnEncode, k, pending, last)
         == Trace(Bodies(FlushedBefore(Flushes(lines, k, pending), k), false), Aborted(texts[j].error))
  {
    var pending' := (if |pending| >= k then [] else pending) + [lines[0]];
    var bs' := Flushes(lines[1..], k, pending');
    assert texts[1..][j - 1] == texts[j];
    if |pending| >= k {
      ConcatAscii(pending);
      DeliverAccepted(FailOnEncode, Concat(pending), Some(items[0]));
      RunStep(items, texts, FailOnEncode, k, pending, last);
      assert pending' == [lines[0]];
      assert Flushes(lines, k, pending) == [pending] + bs';
      FlushedBodies(pending, bs', k);
    } else {
      RunStep(items, texts, FailOnEncode, k, pending, last);
      assert Flushes(lines, k, pending) == bs';
    }
  }

  // ----- The store's bulk endpoint -----

  datatype Request = Request(url: string, body: string)

  function Requests(url: string, bodies: seq<string>): (rs: seq<Request>)
    ensures |rs| == |bodies| && forall i :: 0 <= i < |bodies| ==> rs[i] == Request(url, bodies[i])
  {
    seq(|bodies|, i requires 0 <= i < |bodies| => Request(url, bodies[i]))
  }

  lemma RequestsSnoc(url: string, bodies: seq<string>, body: string)
    ensures Requests(url, bodies + [body]) == Requests(url, bodies) + [Request(url, body)]
  {
  }

  /** The log after the bodies `a` and then the bodies `b` reached the store. */
  lemma RequestsExtend(log: seq<Request>, url: string, a: seq<string>, b: seq<string>)
    ensures (log + Requests(url, a)) + Requests(url, b) == log + Requests(url, a + b)
  {
    assert Requests(url, a + b) == Requests(url, a) + Requests(url, b);
  }

  /** The ElasticSearch connection: its index URL, its bulk limit, and the
      log of the bulk requests that reached it. */
  class Elastic {
    const indexUrl: string
    const maxItemsBulk: int
    var requests: seq<Request>

    constructor (indexUrl: string, maxItemsBulk: int)
      ensures this.indexUrl == indexUrl && this.maxItemsBulk == maxItemsBulk && requests == []
    {
      this.indexUrl := indexUrl;
      this.maxItemsBulk := maxItemsBulk;
      requests := [];
    }

    /** `requests.put(url, data=body)`: a body that cannot be encoded raises
        `UnicodeEncodeError` and nothing is sent. */
    method Put(url: string, body: string) returns (r: Result<()>)
      modifies this
      ensures r == if IsAscii(body) then Ok(()) else Err(UnicodeEncodeError)
      ensures requests == if r.Ok? then old(requests) + [Request(url, body)] else old(requests)
    {
      if IsAscii(body) {
        requests := requests + [Request(url, body)];
        r := Ok(());
      } else {
        r := Err(UnicodeEncodeError);
      }
    }
  }

  /** One flush under `policy`; Gerrit's `send_bulk_json`, or a bare put. */
  method SendBatch<T>(elastic: Elastic, url: string, policy: Policy<T>, body: string, ctx: Option<T>)
    returns (r: Result<()>)
    modifies elastic
    ensures var d := Deliver(policy, body, ctx);
      && r == (if d.Ok? then Ok(()) else Err(d.error))
      && elastic.requests == old(elastic.requests) + (if d.Ok? then [Request(url, d.value)] else [])
  {
    r := elastic.Put(url, body);
    if r.Err? && policy.RetryAscii? {
      match ctx
      case None =>
        r := Err(NameError);
      case Some(x) =>
        var logged := policy.log(x);
        if logged.Err? {
          r := Err(logged.error);
        } else {
          var safe := AsciiOnly(body);
          AsciiOnlyProperties(body);
          r := elastic.Put(url, safe);
        }
    }
  }

  /** One completed iteration of the loop, seen from the whole run: the run
      from here is the flush (if any), then the run from the next item. */
  lemma RunAdvance<T>(items: seq<T>, texts: seq<Result<string>>, policy: Policy<T>, k: int,
                      pending: seq<string>, last: Option<T>, sent: seq<string>)
    requires |texts| == |items| && items != [] && texts[0].Ok?
    requires |pending| >= k ==> Deliver(policy, Concat(pending), Some(items[0])).Ok?
    ensures var out := if |pending| >= k then [Deliver(policy, Concat(pending), Some(items[0])).value] else [];
      var pending' := (if |pending| >= k then [] else pending) + [texts[0].value];
      Prepend(sent, Run(items, texts, policy, k, pending, last))
      == Prepend(sent + out, Run(items[1..], texts[1..], policy, k, pending', Some(items[0])))
  {
    RunStep(items, texts, policy, k, pending, last);
    var out := if |pending| >= k then [Deliver(policy, Concat(pending), Some(items[0])).value] else [];
    var pending' := (if |pending| >= k then [] else pending) + [texts[0].value];
    PrependStep(sent, out, Run(items[1..], texts[1..], policy, k, pending', Some(items[0])));
  }

  /** The text of each item, or the exception rendering it raises. */
  function Rendered<T>(render: T -> Result<string>, items: seq<T>): (ts: seq<Result<string>>)
    ensures |ts| == |items| && forall i :: 0 <= i < |items| ==> ts[i] == render(items[i])
  {
    seq(|items|, i requires 0 <= i < |items| => render(items[i]))
  }

  /** The run from the `i`-th item on. */
  ghost function From<T>(items: seq<T>, texts: seq<Result<string>>, policy: Policy<T>, k: int, i: nat,
                         pending: seq<string>, last: Option<T>): Trace
    requires |texts| == |items| && i <= |items|
  {
    Run(items[i..], texts[i..], policy, k, pending, last)
  }

  lemma FromStart<T>(items: seq<T>, texts: seq<Result<string>>, policy: Policy<T>, k: int,
                     pending: seq<string>, last: Option<T>)
    requires |texts| == |items|
    ensures From(items, texts, policy, k, 0, pending, last) == Run(items, texts, policy, k, pending, last)
  {
    assert items[0..] == items && texts[0..] == texts;
  }

  /** One iteration of the loop, seen from the whole run: the flush (if
      the buffer is full) fails, or the item's text fails, or the run from
      here is the flush's body (if any) followed by the run from the next
      item. */
  lemma FeedStep<T>(items: seq<T>, texts: seq<Result<string>>, policy: Policy<T>, k: int, i: nat,
                    pending: seq<string>, last: Option<T>)
    requires |texts| == |items| && i < |items|
    ensures var flushes := |pending| >= k;
      var d := Deliver(policy, Concat(pending), Some(items[i]));
      var out := if flushes && d.Ok? then [d.value] else [];
      var here := From(items, texts, policy, k, i, pending, last);
      if flushes && d.Err? then here == Trace([], Aborted(d.error))
      else if texts[i].Err? then here == Trace(out, Aborted(texts[i].error))
      else here == Prepend(out, From(items, texts, policy, k, i + 1,
                                     (if flushes then [] else pending) + [texts[i].value], Some(items[i])))
  {
    var rest := items[i..];
    var restTexts := texts[i..];
    assert rest[0] == items[i] && restTexts[0] == texts[i];
    assert rest[1..] == items[i + 1..] && restTexts[1..] == texts[i + 1..];
    var flushes := |pending| >= k;
    var d := Deliver(policy, Concat(pending), Some(items[i]));
    if flushes && d.Err? {
      RunFlushFails(rest, restTexts, policy, k, pending, last);
    } else if texts[i].Err? {
      RunTextFails(rest, restTexts, policy, k, pending, last);
    } else {
      RunAdvance(rest, restTexts, policy, k, pending, last, []);
      var out := if flushes && d.Ok? then [d.value] else [];
      assert [] + out == out;
    }
  }

  /** One iteration of the loop on the `i`-th item, whose text is
      `texts[i]`: flush a full buffer (one holding `maxItemsBulk` texts or
      more), then append the item's text. The store receives `out`; the run
      from this item either ends here, having sent `out`, or sends `out` and
      goes on from the next item with `pending'` in the buffer. */
  method Feed<T>(elastic: Elastic, url: string, policy: Policy<T>, render: T -> Result<string>,
                 items: seq<T>, i: nat, bulkJson: string, current: int,
                 ghost texts: seq<Result<string>>, ghost pending: seq<string>, ghost last: Option<T>)
    returns (r: Result<()>, newJson: string, newCount: int, ghost out: seq<string>, ghost pending': seq<string>)
    requires |texts| == |items| && i < |items| && texts[i] == render(items[i])
    requires bulkJson == Concat(pending) && current == |pending|
    modifies elastic
    ensures elastic.requests == old(elastic.requests) + Requests(url, out)
    ensures var here := From(items, texts, policy, elastic.maxItemsBulk, i, pending, last);
      if r.Err? then here == Trace(out, Aborted(r.error))
      else here == Prepend(out, From(items, texts, policy, elastic.maxItemsBulk, i + 1, pending', Some(items[i])))
           && newJson == Concat(pending') && newCount == |pending'|
  {
    FeedStep(items, texts, policy, elastic.maxItemsBulk, i, pending, last);
    newJson, newCount, out, pending' := bulkJson, current, [], pending;
    if current >= elastic.maxItemsBulk {
      r := SendBatch(elastic, url, policy, bulkJson, Some(items[i]));
      if r.Err? {
        return;
      }
      out := [Deliver(policy, bulkJson, Some(items[i])).value];
      newJson, newCount, pending' := "", 0, [];
    }
    var text := render(items[i]);
    if text.Err? {
      return Err(text.error), newJson, newCount, out, pending';
    }
    newJson, newCount, pending' := newJson + text.value, newCount + 1, pending' + [text.value];
    r := Ok(());
  }

  /** The flush after the last item, with `last` the item the loop variable
      still holds (none when there were no items). */
  method FlushLast<T>(elastic: Elastic, url: string, policy: Policy<T>, bulkJson: string, last: Option<T>,
                      ghost items: seq<T>, ghost texts: seq<Result<string>>, ghost pending: seq<string>)
    returns (outcome: Outcome, ghost out: seq<string>)
    requires bulkJson == Concat(pending) && |texts| == |items|
    modifies elastic
    ensures Trace(out, outcome) == From(items, texts, policy, elastic.maxItemsBulk, |items|, pending, last)
    ensures elastic.requests == old(elastic.requests) + Requests(url, out)
  {
    assert items[|items|..] == [] && texts[|items|..] == [];
    var put := SendBatch(elastic, url, policy, bulkJson, last);
    if put.Err? {
      return Aborted(put.error), [];
    }
    outcome, out := Completed, [Deliver(policy, bulkJson, last).value];
  }

  /** The buffer-and-flush loop both connectors run: before each item, a
      buffer already holding `maxItemsBulk` texts (or more) is flushed to
      `url` under `policy`; then the item's text is appended; after the last
      item the buffer is flushed once more, even when empty. An exception
      (from rendering or from a flush) ends the loop. The store receives
      exactly the bodies of `Run`, and the loop ends as `Run` does. */
  method BulkLoop<T>(elastic: Elastic, url: string, policy: Policy<T>, items: seq<T>, render: T -> Result<string>)
    returns (outcome: Outcome)
    modifies elastic
    ensures var t := Run(items, Rendered(render, items), policy, elastic.maxItemsBulk, [], None);
      outcome == t.outcome && elastic.requests == old(elastic.requests) + Requests(url, t.sent)
  {
    var current := 0;
    var bulkJson := "";
    ghost var texts := Rendered(render, items);
    ghost var pending: seq<string> := [];
    ghost var sent: seq<string> := [];
    var last: Option<T> := None;
    ghost var whole := Run(items, texts, policy, elastic.maxItemsBulk, [], None);
    FromStart(items, texts, policy, elastic.maxItemsBulk, [], None);
    var i := 0;
    while i < |items|
      invariant 0 <= i <= |items| && bulkJson == Concat(pending) && current == |pending|
      invariant elastic.requests == old(elastic.requests) + Requests(url, sent)
      invariant whole == Prepend(sent, From(items, texts, policy, elastic.maxItemsBulk, i, pending, last))
    {
      var r;
      ghost var out;
      r, bulkJson, current, out, pending := Feed(elastic, url, policy, render, items, i, bulkJson, current,
                                                 texts, pending, last);
      RequestsExtend(old(elastic.requests), url, sent, out);
      if r.Err? {
        return Aborted(r.error);
      }
      PrependPrepend(sent, out, From(items, texts, policy, elastic.maxItemsBulk, i + 1, pending, Some(items[i])));
      sent := sent + out;
      last := Some(items[i]);
      i := i + 1;
    }
    ghost var out;
    outcome, out := FlushLast(elastic, url, policy, bulkJson, last, items, texts, pending);
    RequestsExtend(old(elastic.requests), url, sent, out);
  }

  // ----- Newline-delimited bulk bodies -----

  /** The bulk action line `{"index" : {"_id" : "<id>" } }` (without its newline). */
  function DirectiveLine(id: string): string {
    "{\"index\" : {\"_id\" : \"" + id + "\" } }"
  }

  /** A trace with `sent` delivered before it. */
  function Prepend(sent: seq<string>, t: Trace): Trace {
    Trace(sent + t.sent, t.outcome)
  }

  lemma PrependStep(sent: seq<string>, out: seq<string>, t: Trace)
    ensures Prepend(sent, Trace(out + t.sent, t.outcome)) == Prepend(sent + out, t)
  {
    assert sent + (out + t.sent) == (sent + out) + t.sent;
  }

  lemma PrependPrepend(a: seq<string>, b: seq<string>, t: Trace)
    ensures Prepend(a, Prepend(b, t)) == Prepend(a + b, t)
  {
    assert a + (b + t.sent) == (a + b) + t.sent;
  }

  /** The lines, each followed by a newline. */
  function Terminated(lines: seq<string>): string
    decreases |lines|
  {
    if lines == [] then "" else lines[0] + "\n" + Terminated(lines[1..])
  }

  predicate NoNewline(lines: seq<string>) {
    forall i :: 0 <= i < |lines| ==> '\n' !in lines[i]
  }

  /** Splitting at the first separator: its prefix, then the split of the rest. */
  lemma {:induction false} SplitFirst(s: string, sep: char)
    requires sep in s
    ensures Split(s, sep) == [TakeUntil(s, sep)] + Split(DropThrough(s, sep), sep)
    decreases |s|
  {
    if s[0] != sep {
      SplitFirst(s[1..], sep);
    }
  }

  /** The first line of `l`, a newline, then `rest` is `l`, and after it comes `rest`. */
  lemma {:induction false} FirstLine(l: string, t: string)
    requires '\n' !in l && t != [] && t[0] == '\n'
    ensures TakeUntil(l + t, '\n') == l && DropThrough(l + t, '\n') == t[1..]
    decreases |l|
  {
    if l == [] {
      assert l + t == t;
    } else {
      assert (l + t)[1..] == l[1..] + t;
      FirstLine(l[1..], t);
    }
  }

  lemma SplitLine(l: string, rest: string)
    requires '\n' !in l
    ensures Split(l + "\n" + rest, '\n') == [l] + Split(rest, '\n')
  {
    var t := "\n" + rest;
    assert l + "\n" + rest == l + t;
    FirstLine(l, t);
    assert t[1..] == rest;
    SplitFirst(l + t, '\n');
  }

  /** Splitting a newline-terminated body at its newlines gives back its
      lines, then the empty text after the final newline. */
  lemma {:induction false} SplitTerminated(lines: seq<string>)
    requires NoNewline(lines)
    ensures Split(Terminated(lines), '\n') == lines + [""]
    decreases |lines|
  {
    if lines != [] {
      var rest := Terminated(lines[1..]);
      assert Terminated(lines) == lines[0] + "\n" + rest;
      SplitLine(lines[0], rest);
      SplitTerminated(lines[1..]);
      ConsAppend(lines, "");
    }
  }

  lemma ConsAppend<T>(s: seq<T>, x: T)
    requires s != []
    ensures [s[0]] + (s[1..] + [x]) == s + [x]
  {
    assert s == [s[0]] + s[1..];
  }

  lemma {:induction false} TerminatedAppend(a: seq<string>, b: seq<string>)
    ensures Terminated(a + b) == Terminated(a) + Terminated(b)
    decreases |a|
  {
    if a == [] {
      assert a + b == b;
    } else {
      assert (a + b)[0] == a[0];
      assert (a + b)[1..] == a[1..] + b;
      TerminatedAppend(a[1..], b);
      assert Terminated(a + b) == a[0] + "\n" + Terminated(a[1..] + b);
      assert Terminated(a) == a[0] + "\n" + Terminated(a[1..]);
    }
  }

  /** A buffer of texts that are each newline-terminated is the
      newline-termination of all their lines, in order. */
  lemma {:induction false} ConcatTerminated(texts: seq<string>, lines: seq<seq<string>>)
    requires |texts| == |lines|
    requires forall i :: 0 <= i < |texts| ==> texts[i] == Terminated(lines[i])
    ensures Concat(texts) == Terminated(Flatten(lines))
    decreases |texts|
  {
    if texts != [] {
      ConcatCons(texts[0], texts[1..]);
      assert [texts[0]] + texts[1..] == texts;
      ConcatTerminated(texts[1..], lines[1..]);
      TerminatedAppend(lines[0], Flatten(lines[1..]));
    }
  }

  /** The lines of two-line texts, in order: each text's first line, then its second. */
  lemma {:induction false} FlattenPairs(lines: seq<seq<string>>)
    requires forall i :: 0 <= i < |lines| ==> |lines[i]| == 2
    ensures |Flatten(lines)| == 2 * |lines|
    ensures forall i :: 0 <= i < |lines| ==>
      Flatten(lines)[2 * i] == lines[i][0] && Flatten(lines)[2 * i + 1] == lines[i][1]
    decreases |lines|
  {
    if lines != [] {
      var rest := Flatten(lines[1..]);
      FlattenPairs(lines[1..]);
      var f := Flatten(lines);
      assert f == lines[0] + rest;
      forall i | 1 <= i < |lines|
        ensures f[2 * i] == lines[i][0] && f[2 * i + 1] == lines[i][1]
      {
        assert lines[1..][i - 1] == lines[i];
        assert f[2 * i] == rest[2 * (i - 1)];
        assert f[2 * i + 1] == rest[2 * (i - 1) + 1];
      }
    }
  }

  lemma PairsNoNewline(f: seq<string>, heads: seq<string>, bodies: seq<string>)
    requires |f| == 2 * |heads| && |heads| == |bodies|
    requires forall i :: 0 <= i < |heads| ==> f[2 * i] == heads[i] && f[2 * i + 1] == bodies[i]
    requires forall i :: 0 <= i < |heads| ==> '\n' !in heads[i] && '\n' !in bodies[i]
    ensures NoNewline(f)
  {
    forall j | 0 <= j < |f| ensures '\n' !in f[j] {
      var i := j / 2;
      if j == 2 * i {
        assert f[j] == heads[i];
      } else {
        assert f[j] == bodies[i];
      }
    }
  }

  /** A directive line has a newline only when its id has one. */
  lemma DirectiveNoNewline(id: string)
    requires '\n' !in id
    ensures '\n' !in DirectiveLine(id)
  {
    assert '\n' !in "{\"index\" : {\"_id\" : \"";
    assert '\n' !in "\" } }";
  }

  /** A bulk body made of texts that are each a head line and a body line
      (neither holding a newline), split at its newlines, is every head
      followed by its body, in order, and then the empty text after the
      final newline. */
  lemma SplitPairs(texts: seq<string>, heads: seq<string>, bodies: seq<string>)
    requires |texts| == |heads| == |bodies|
    requires forall i :: 0 <= i < |texts| ==>
      texts[i] == Terminated([heads[i], bodies[i]]) && '\n' !in heads[i] && '\n' !in bodies[i]
    ensures var ls := Split(Concat(texts), '\n');
      && |ls| == 2 * |texts| + 1 && ls[2 * |texts|] == ""
      && forall i :: 0 <= i < |texts| ==> ls[2 * i] == heads[i] && ls[2 * i + 1] == bodies[i]
  {
    var lines := seq(|texts|, i requires 0 <= i < |texts| => [heads[i], bodies[i]]);
    ConcatTerminated(texts, lines);
    FlattenPairs(lines);
    var f := Flatten(lines);
    forall i | 0 <= i < |texts|
      ensures f[2 * i] == heads[i] && f[2 * i + 1] == bodies[i]
    {
      assert lines[i] == [heads[i], bodies[i]];
    }
    PairsNoNewline(f, heads, bodies);
    SplitTerminated(f);
  }

  lemma {:induction false} FlattenTriples(lines: seq<seq<string>>)
    requires forall i :: 0 <= i < |lines| ==> |lines[i]| == 3
    ensures |Flatten(lines)| == 3 * |lines|
    ensures forall i :: 0 <= i < |lines| ==>
      Flatten(lines)[3 * i] == lines[i][0] && Flatten(lines)[3 * i + 1] == lines[i][1]
      && Flatten(lines)[3 * i + 2] == lines[i][2]
    decreases |lines|
  {
    if lines != [] {
      var rest := Flatten(lines[1..]);
      FlattenTriples(lines[1..]);
      var f := Flatten(lines);
      assert f == lines[0] + rest;
      forall i | 1 <= i < |lines|
        ensures f[3 * i] == lines[i][0] && f[3 * i + 1] == lines[i][1] && f[3 * i + 2] == lines[i][2]
      {
        assert lines[1..][i - 1] == lines[i];
        assert f[3 * i] == rest[3 * (i - 1)];
        assert f[3 * i + 1] == rest[3 * (i - 1) + 1];
        assert f[3 * i + 2] == rest[3 * (i - 1) + 2];
      }
    }
  }

  lemma TriplesNoNewline(f: seq<string>, heads: seq<string>, bodies: seq<string>)
    requires |f| == 3 * |heads| && |heads| == |bodies|
    requires forall i :: 0 <= i < |heads| ==> f[3 * i] == heads[i] && f[3 * i + 1] == bodies[i] && f[3 * i + 2] == ""
    requires forall i :: 0 <= i < |heads| ==> '\n' !in heads[i] && '\n' !in bodies[i]
    ensures NoNewline(f)
  {
    forall j | 0 <= j < |f| ensures '\n' !in f[j] {
      var i := j / 3;
      if j == 3 * i {
        assert f[j] == heads[i];
      } else if j == 3 * i + 1 {
        assert f[j] == bodies[i];
      } else {
        assert f[j] == "";
      }
    }
  }

  /** A bulk body made of texts that are each a head line, a body line
      (neither holding a newline) and an empty line, split at its newlines,
      is every head followed by its body and an empty line, in order, and
      then the empty text after the final newline. */
  lemma SplitTriples(texts: seq<string>, heads: seq<string>, bodies: seq<string>)
    requires |texts| == |heads| == |bodies|
    requires forall i :: 0 <= i < |texts| ==>
      texts[i] == Terminated([heads[i], bodies[i], ""]) && '\n' !in heads[i] && '\n' !in bodies[i]
    ensures var ls := Split(Concat(texts), '\n');
      && |ls| == 3 * |texts| + 1 && ls[3 * |texts|] == ""
      && forall i :: 0 <= i < |texts| ==> ls[3 * i] == heads[i] && ls[3 * i + 1] == bodies[i] && ls[3 * i + 2] == ""
  {
    var lines := seq(|texts|, i requires 0 <= i < |texts| => [heads[i], bodies[i], ""]);
    ConcatTerminated(texts, lines);
    FlattenTriples(lines);
    var f := Flatten(lines);
    forall i | 0 <= i < |texts|
      ensures f[3 * i] == heads[i] && f[3 * i + 1] == bodies[i] && f[3 * i + 2] == ""
    {
      assert lines[i] == [heads[i], bodies[i], ""];
    }
    TriplesNoNewline(f, heads, bodies);
    SplitTerminated(f);
  }
}
