/** The swapchain generation (swapchain, images, one view per image, one
    framebuffer per view, extent) and `recreate_swapchain` as a function from
    the old generation to the calls it makes and the new generation. */
module Lifecycle {
  import opened Vulkan
  import opened Selection

  datatype Chain = Chain(
    swapchain: Swapchain,
    images: seq<Image>,
    imageViews: seq<ImageView>,
    framebuffers: seq<Framebuffer>,
    extent: Extent)

  /** One view per image and one framebuffer per view, each built from the
      partner at the same index, with the current extent and `renderPass`. */
  predicate WellFormed(c: Chain, renderPass: RenderPass)
  {
    && |c.imageViews| == |c.images|
    && |c.framebuffers| == |c.imageViews|
    && (forall k :: 0 <= k < |c.imageViews| ==> c.imageViews[k].image == c.images[k])
    && (forall k :: 0 <= k < |c.framebuffers| ==>
          && c.framebuffers[k].view == c.imageViews[k]
          && c.framebuffers[k].renderPass == renderPass
          && c.framebuffers[k].extent == c.extent)
  }

  /** Every handle the generation was built with was issued before `nextId`. */
  predicate IssuedBefore(c: Chain, nextId: nat)
  {
    && c.swapchain.Id() < nextId
    && (forall v :: v in c.imageViews ==> v.id < nextId)
    && (forall f :: f in c.framebuffers ==> f.id < nextId)
  }

  /** What `get_swapchain_images` hands back for a fresh swapchain. */
  function SwapchainImages(swapchainId: nat, count: nat): seq<Image>
  {
    seq(count, (k: nat) => Image(swapchainId, k))
  }

  /** `images.iter().map(create_image_view).collect()`, the k-th call issuing id `firstId + k`. */
  function ViewsFor(images: seq<Image>, format: int, firstId: nat): seq<ImageView>
  {
    seq(|images|, (k: nat) requires k < |images| => ImageView(firstId + k, images[k], format))
  }

  /** `image_views.iter().map(create_framebuffer).collect()`. */
  function FramebuffersFor(views: seq<ImageView>, renderPass: RenderPass, extent: Extent, firstId: nat): seq<Framebuffer>
  {
    seq(|views|, (k: nat) requires k < |views| => Framebuffer(firstId + k, renderPass, views[k], extent))
  }

  function DestroyFramebufferOps(fbs: seq<Framebuffer>): seq<Op>
  {
    seq(|fbs|, (k: nat) requires k < |fbs| => DestroyFramebuffer(fbs[k]))
  }

  function DestroyImageViewOps(views: seq<ImageView>): seq<Op>
  {
    seq(|views|, (k: nat) requires k < |views| => DestroyImageView(views[k]))
  }

  function CreateImageViewOps(views: seq<ImageView>): seq<Op>
  {
    seq(|views|, (k: nat) requires k < |views| => CreateImageView(views[k]))
  }

  function CreateFramebufferOps(fbs: seq<Framebuffer>): seq<Op>
  {
    seq(|fbs|, (k: nat) requires k < |fbs| => CreateFramebuffer(fbs[k]))
  }

  /** Building views and framebuffers makes only creation calls. */
  lemma BuildOpsOnlyCreate(views: seq<ImageView>, fbs: seq<Framebuffer>)
    ensures forall op :: op in CreateImageViewOps(views) ==> op.CreateImageView?
    ensures forall op :: op in CreateFramebufferOps(fbs) ==> op.CreateFramebuffer?
  {
    forall op | op in CreateImageViewOps(views) ensures op.CreateImageView? {
      var k :| 0 <= k < |views| && CreateImageViewOps(views)[k] == op;
    }
    forall op | op in CreateFramebufferOps(fbs) ensures op.CreateFramebuffer? {
      var k :| 0 <= k < |fbs| && CreateFramebufferOps(fbs)[k] == op;
    }
  }

  /** The calls that build a generation: the swapchain, then each view, then
      each framebuffer. */
  function BuildOps(swapchain: Swapchain, views: seq<ImageView>, fbs: seq<Framebuffer>): seq<Op>
  {
    [CreateSwapchain(swapchain)] + CreateImageViewOps(views) + CreateFramebufferOps(fbs)
  }

  /** The first half of `recreate_swapchain`: wait for the device, then
      destroy the framebuffers, the views and the swapchain, in that order. */
  function Teardown(c: Chain): seq<Op>
  {
    [DeviceWaitIdle] + DestroyFramebufferOps(c.framebuffers) + DestroyImageViewOps(c.imageViews)
      + [DestroySwapchain(c.swapchain)]
  }

  datatype Recreation = Recreation(ops: seq<Op>, chain: Chain, nextId: nat, failure: Option<Panic>)

  /** `recreate_swapchain`: tear the old generation down, take the extent from
      the window, and build a new swapchain, views and framebuffers. When the
      settings panic the old handles have already been destroyed and the
      extent already replaced. */
  function Recreate(c: Chain, renderPass: RenderPass, nextId: nat, report: SurfaceReport): Recreation
  {
    var extent := report.windowSize;
    match SwapchainSettings(report.capabilities, report.formats, report.presentModes, extent)
    case Failure(p) => Recreation(Teardown(c), c.(extent := extent), nextId, Some(p))
    case Success(info) =>
      var swapchain := Swapchain(nextId, info);
      var images := SwapchainImages(nextId, report.swapchainImageCount);
      var views := ViewsFor(images, info.format.format, nextId + 1);
      var framebuffers := FramebuffersFor(views, renderPass, extent, nextId + 1 + |views|);
      Recreation(
        Teardown(c) + BuildOps(swapchain, views, framebuffers),
        Chain(swapchain, images, views, framebuffers, extent),
        nextId + 1 + |views| + |framebuffers|,
        None)
  }

  /** The new generation has one view per image and one framebuffer per view,
      as many as the driver returned, built with the window's size whatever the
      surface's current extent, and with the settings chosen from the report.
      At least one image is requested, so a driver that returns at least the
      requested count (as Vulkan requires) yields a non-empty generation. */
  lemma RecreateBuildsMatchingGeneration(c: Chain, renderPass: RenderPass, nextId: nat, report: SurfaceReport)
    ensures var r := Recreate(c, renderPass, nextId, report);
      var settings := SwapchainSettings(report.capabilities, report.formats, report.presentModes, report.windowSize);
      && r.chain.extent == report.windowSize
      && (r.failure.None? <==> settings.Success?)
      && (r.failure.Some? ==> r.failure.value == settings.panic && r.nextId == nextId)
      && (r.failure.None? ==>
            && WellFormed(r.chain, renderPass)
            && |r.chain.images| == report.swapchainImageCount
            && r.chain.swapchain == Swapchain(nextId, settings.value)
            && r.chain.swapchain.info.extent == report.windowSize
            && 1 <= r.chain.swapchain.info.minImageCount
            && (report.swapchainImageCount >= r.chain.swapchain.info.minImageCount ==> |r.chain.images| > 0)
            && (forall k :: 0 <= k < |r.chain.images| ==> r.chain.images[k] == Image(nextId, k))
            && (forall v :: v in r.chain.imageViews ==> v.format == report.formats[0].format))
  {
  }

  /** Each call falls into one phase; along the calls of a recreation the
      phases never go back. */
  function Phase(op: Op): nat
  {
    match op
    case DeviceWaitIdle => 0
    case DestroyFramebuffer(_) => 1
    case DestroyImageView(_) => 2
    case DestroySwapchain(_) => 3
    case CreateSwapchain(_) => 4
    case CreateImageView(_) => 5
    case CreateFramebuffer(_) => 6
    case _ => 7
  }

  predicate PhasesOrdered(ops: seq<Op>)
  {
    forall i, j :: 0 <= i < j < |ops| ==> Phase(ops[i]) <= Phase(ops[j])
  }

  predicate PhasesAtMost(ops: seq<Op>, p: nat)
  {
    forall i :: 0 <= i < |ops| ==> Phase(ops[i]) <= p
  }

  predicate AllInPhase(ops: seq<Op>, p: nat)
  {
    forall i :: 0 <= i < |ops| ==> Phase(ops[i]) == p
  }

  lemma AppendPhase(ops: seq<Op>, next: seq<Op>, p: nat)
    requires PhasesOrdered(ops) && PhasesAtMost(ops, p) && AllInPhase(next, p)
    ensures PhasesOrdered(ops + next) && PhasesAtMost(ops + next, p)
  {
    var all := ops + next;
    forall i, j | 0 <= i < j < |all| ensures Phase(all[i]) <= Phase(all[j]) {
      if j >= |ops| {
        assert all[j] == next[j - |ops|];
        if i >= |ops| { assert all[i] == next[i - |ops|]; } else { assert all[i] == ops[i]; }
      } else {
        assert all[i] == ops[i] && all[j] == ops[j];
      }
    }
  }

  /** The device is idle before anything is destroyed, every framebuffer goes
      before any view, every view before the swapchain, and the new generation
      is created only after the old one is gone: swapchain, then views, then
      framebuffers. */
  lemma {:induction false} RecreatePhasesOrdered(c: Chain, renderPass: RenderPass, nextId: nat, report: SurfaceReport)
    ensures PhasesOrdered(Recreate(c, renderPass, nextId, report).ops)
    ensures PhasesAtMost(Recreate(c, renderPass, nextId, report).ops, 6)
  {
    var r := Recreate(c, renderPass, nextId, report);
    var s0: seq<Op> := [DeviceWaitIdle];
    var s1 := DestroyFramebufferOps(c.framebuffers);
    var s2 := DestroyImageViewOps(c.imageViews);
    var s3 := [DestroySwapchain(c.swapchain)];
    AppendPhase(s0, s1, 1);
    AppendPhase(s0 + s1, s2, 2);
    AppendPhase(s0 + s1 + s2, s3, 3);
    assert Teardown(c) == s0 + s1 + s2 + s3;
    if r.failure.None? {
      var s4 := [CreateSwapchain(r.chain.swapchain)];
      var s5 := CreateImageViewOps(r.chain.imageViews);
      var s6 := CreateFramebufferOps(r.chain.framebuffers);
      AppendPhase(Teardown(c), s4, 4);
      AppendPhase(Teardown(c) + s4, s5, 5);
      AppendPhase(Teardown(c) + s4 + s5, s6, 6);
      assert r.ops == Teardown(c) + (s4 + s5 + s6);
      assert r.ops == Teardown(c) + s4 + s5 + s6;
    }
  }

  /** The teardown, position by position: the wait, each old framebuffer,
      each old view, then the old swapchain. */
  lemma TeardownLayout(c: Chain)
    ensures var t := Teardown(c);
      var nf := |c.framebuffers|;
      var nv := |c.imageViews|;
      && |t| == nf + nv + 2
      && t[0] == DeviceWaitIdle
      && (forall k :: 0 <= k < nf ==> t[1 + k] == DestroyFramebuffer(c.framebuffers[k]))
      && (forall k :: 0 <= k < nv ==> t[1 + nf + k] == DestroyImageView(c.imageViews[k]))
      && t[1 + nf + nv] == DestroySwapchain(c.swapchain)
  {
    var t := Teardown(c);
    var nf := |c.framebuffers|;
    forall k | 0 <= k < nf ensures t[1 + k] == DestroyFramebuffer(c.framebuffers[k]) {
      assert t[1 + k] == DestroyFramebufferOps(c.framebuffers)[k];
    }
    forall k | 0 <= k < |c.imageViews| ensures t[1 + nf + k] == DestroyImageView(c.imageViews[k]) {
      assert t[1 + nf + k] == DestroyImageViewOps(c.imageViews)[k];
    }
  }

  /** A recreation starts with the whole teardown; when the settings panic it
      stops there, otherwise the rest is the build of the new generation, one
      framebuffer per view. */
  lemma RecreateCallSequence(c: Chain, renderPass: RenderPass, nextId: nat, report: SurfaceReport)
    ensures var r := Recreate(c, renderPass, nextId, report);
      var t := Teardown(c);
      && |t| <= |r.ops| && r.ops[..|t|] == t
      && (r.failure.Some? ==> r.ops == t)
      && (r.failure.None? ==>
            && |r.chain.framebuffers| == |r.chain.imageViews|
            && r.ops[|t|..] == BuildOps(r.chain.swapchain, r.chain.imageViews, r.chain.framebuffers))
  {
    var r := Recreate(c, renderPass, nextId, report);
    var t := Teardown(c);
    if r.failure.None? {
      var built := BuildOps(r.chain.swapchain, r.chain.imageViews, r.chain.framebuffers);
      assert r.ops == t + built;
      assert r.ops[..|t|] == t && r.ops[|t|..] == built;
    } else {
      assert r.ops[..|t|] == t;
    }
  }

  /** The build, position by position: the new swapchain, each new view, then
      each new framebuffer. */
  lemma BuildLayout(swapchain: Swapchain, views: seq<ImageView>, fbs: seq<Framebuffer>)
    ensures var b := BuildOps(swapchain, views, fbs);
      && |b| == 1 + |views| + |fbs|
      && b[0] == CreateSwapchain(swapchain)
      && (forall k :: 0 <= k < |views| ==> b[1 + k] == CreateImageView(views[k]))
      && (forall k :: 0 <= k < |fbs| ==> b[1 + |views| + k] == CreateFramebuffer(fbs[k]))
  {
    var b := BuildOps(swapchain, views, fbs);
    forall k | 0 <= k < |views| ensures b[1 + k] == CreateImageView(views[k]) {
      assert b[1 + k] == CreateImageViewOps(views)[k];
    }
    forall k | 0 <= k < |fbs| ensures b[1 + |views| + k] == CreateFramebuffer(fbs[k]) {
      assert b[1 + |views| + k] == CreateFramebufferOps(fbs)[k];
    }
  }

  /** Handles issued before `nextId` were issued before any later id too. */
  lemma IssuedBeforeLater(c: Chain, nextId: nat, laterId: nat)
    requires IssuedBefore(c, nextId) && nextId <= laterId
    ensures IssuedBefore(c, laterId)
  {
  }

  /** Views built over `images` and framebuffers built over those views form
      a well-formed generation with any swapchain, and their ids are the
      consecutive ranges starting at `viewId` and `framebufferId`. */
  lemma BuiltGeneration(swapchain: Swapchain, images: seq<Image>, format: int, viewId: nat,
                        renderPass: RenderPass, extent: Extent, framebufferId: nat)
    ensures var views := ViewsFor(images, format, viewId);
      var fbs := FramebuffersFor(views, renderPass, extent, framebufferId);
      && WellFormed(Chain(swapchain, images, views, fbs, extent), renderPass)
      && (forall v :: v in views ==> viewId <= v.id < viewId + |images|)
      && (forall f :: f in fbs ==> framebufferId <= f.id < framebufferId + |images|)
  {
    var views := ViewsFor(images, format, viewId);
    var fbs := FramebuffersFor(views, renderPass, extent, framebufferId);
    forall v | v in views ensures viewId <= v.id < viewId + |images| {
      var k :| 0 <= k < |views| && views[k] == v;
    }
    forall f | f in fbs ensures framebufferId <= f.id < framebufferId + |images| {
      var k :| 0 <= k < |fbs| && fbs[k] == f;
    }
  }

  /** Every handle of the new generation is issued after every handle of the
      old one, so no view or framebuffer of the old generation is reused, and
      the bound on issued ids moves forward. */
  lemma RecreateIssuesFreshHandles(c: Chain, renderPass: RenderPass, nextId: nat, report: SurfaceReport)
    requires IssuedBefore(c, nextId)
    ensures var r := Recreate(c, renderPass, nextId, report);
      && nextId <= r.nextId
      && (r.failure.None? ==>
            && IssuedBefore(r.chain, r.nextId)
            && r.chain.swapchain.Id() >= nextId
            && (forall v :: v in r.chain.imageViews ==> v.id >= nextId && v !in c.imageViews)
            && (forall f :: f in r.chain.framebuffers ==> f.id >= nextId && f !in c.framebuffers))
  {
    var r := Recreate(c, renderPass, nextId, report);
    if r.failure.None? {
      var n := |r.chain.images|;
      BuiltGeneration(r.chain.swapchain, r.chain.images, r.chain.swapchain.info.format.format, nextId + 1,
                      renderPass, report.windowSize, nextId + 1 + n);
    }
  }

  /** Recreating a second time from the same report gives a generation of the
      same shape: as many images, the same create-info and the same extent. */
  lemma RecreateTwiceGivesSameShape(c: Chain, renderPass: RenderPass, nextId: nat, report: SurfaceReport)
    requires Recreate(c, renderPass, nextId, report).failure.None?
    ensures var r1 := Recreate(c, renderPass, nextId, report);
      var r2 := Recreate(r1.chain, renderPass, r1.nextId, report);
      && r2.failure.None?
      && |r2.chain.images| == |r1.chain.images| == report.swapchainImageCount
      && r2.chain.swapchain.info == r1.chain.swapchain.info
      && r2.chain.extent == r1.chain.extent
  {
  }
}
