/** Sizing of the compute dispatch in Draw (main.cpp): the image is covered by
    square workgroups of THREADS x THREADS invocations, and the number of
    groups on each axis is the image side divided by THREADS, rounded up.
    WIDTH, HEIGHT and THREADS come from a build configuration that is not part
    of this model; they are parameters here. */
module Dispatch {

  import opened Arith

  /** `(size + threads - 1) / threads`: the number of groups along one axis. */
  function GroupCount(size: nat, threads: nat): (groups: nat)
    requires 0 < threads
    // enough groups to reach every pixel, and not one group more
    ensures size <= groups * threads < size + threads
  {
    var g := (size + threads - 1) / threads;
    assert size + threads - 1 == g * threads + (size + threads - 1) % threads;
    g
  }

  /** The count is the least number of groups that covers the axis. */
  lemma GroupCountIsLeast(size: nat, threads: nat, groups: nat)
    requires 0 < threads && size <= groups * threads
    ensures GroupCount(size, threads) <= groups
  {
    var g := GroupCount(size, threads);
    assert (g - 1) * threads == g * threads - threads;
    CancelFactorStrict(g - 1, groups, threads);
  }

  /** The workgroup counts passed to the dispatch, as (groupsX, groupsY). */
  function Groups(imageW: nat, imageH: nat, threads: nat): (r: (nat, nat))
    requires 0 < threads
    ensures imageW <= r.0 * threads < imageW + threads
    ensures imageH <= r.1 * threads < imageH + threads
  {
    (GroupCount(imageW, threads), GroupCount(imageH, threads))
  }

  /** Every pixel of the image lies in a dispatched group: pixel (px, py) is
      handled by group (px / threads, py / threads), at local position
      (px % threads, py % threads), assuming each group is THREADS x THREADS
      invocations. */
  lemma DispatchCoversImage(imageW: nat, imageH: nat, threads: nat, px: nat, py: nat)
    requires 0 < threads && px < imageW && py < imageH
    ensures var (gx, gy) := Groups(imageW, imageH, threads);
      px / threads < gx && py / threads < gy
  {
    GroupBelow(px, imageW, threads);
    GroupBelow(py, imageH, threads);
  }

  /** Along one axis no two invocations handle the same coordinate: a group
      index and a local position below THREADS that name coordinate `p` are
      its quotient and remainder by THREADS. */
  lemma InvocationIsUnique(p: nat, threads: nat, group: nat, local: nat)
    requires 0 < threads && local < threads && p == group * threads + local
    ensures group == p / threads && local == p % threads
  {
    var q, m := p / threads, p % threads;
    assert p == q * threads + m;
    // p lies in [q * threads, (q + 1) * threads) and in
    // [group * threads, (group + 1) * threads); those ranges meet only if q == group
    CancelFactorStrict(group, q + 1, threads);
    CancelFactorStrict(q, group + 1, threads);
  }

  /** The group of a coordinate inside the axis is one of the dispatched groups. */
  lemma GroupBelow(p: nat, size: nat, threads: nat)
    requires 0 < threads && p < size
    ensures p / threads < GroupCount(size, threads)
  {
    var g := GroupCount(size, threads);
    var q := p / threads;
    assert q * threads <= p by { assert p == q * threads + p % threads; }
    CancelFactorStrict(q, g, threads);
  }
}
