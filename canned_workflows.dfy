/**
 * The fixed-card workflows the dispatcher calls for moving quotes, inventory,
 * the immigration overview and the services overview. Each posts its card to
 * the active thread; the two overviews post an empty message first.
 */
module CannedWorkflows {
  import opened Wrappers
  import opened Environment
  import opened SessionStore

  /** Post `texts` in order to the active thread; each one updates that thread's preview and time. */
  method PostAll(s: Store, texts: seq<string>)
    requires s.Valid()
    modifies s
    ensures s.Valid()
    ensures Appended(old(s.messages), s.messages, Gullie, texts, s.activeThreadId)
    ensures s.timers == old(s.timers) && s.steps == old(s.steps) && s.plan == old(s.plan)
    ensures s.threads == TouchedBy(old(s.threads), s.activeThreadId, texts, s.activeThreadId, s.now, s.host.stripHtml)
    ensures s.Followed(old(s.messages), old(s.threads))
    ensures s.activeThreadId == old(s.activeThreadId) && s.now == old(s.now)
  {
    var k := 0;
    while k < |texts|
      invariant 0 <= k <= |texts|
      invariant s.Valid()
      invariant Appended(old(s.messages), s.messages, Gullie, texts[..k], s.activeThreadId)
      invariant s.timers == old(s.timers) && s.steps == old(s.steps) && s.plan == old(s.plan)
      invariant s.threads == TouchedBy(old(s.threads), s.activeThreadId, texts[..k], s.activeThreadId, s.now, s.host.stripHtml)
      invariant s.activeThreadId == old(s.activeThreadId) && s.now == old(s.now)
    {
      ghost var before, threads := s.messages, s.threads;
      var _ := s.GullieSay(texts[k], None);
      AppendedChain(old(s.messages), before, s.messages, Gullie, texts[..k], [texts[k]], s.activeThreadId);
      TouchedByOne(threads, s.activeThreadId, texts[k], s.activeThreadId, s.now, s.host.stripHtml);
      TouchedByChain(old(s.threads), s.activeThreadId, texts[..k], [texts[k]], s.activeThreadId, s.now, s.host.stripHtml);
      assert texts[..k] + [texts[k]] == texts[..k + 1];
      k := k + 1;
    }
    assert texts[..k] == texts;
    TrackedPosts(old(s.messages), s.messages, Gullie, texts, old(s.threads), s.threads, s.activeThreadId, s.now,
                 s.host.stripHtml);
  }

  method HandleMovingQuotes(s: Store)
    requires s.Valid()
    modifies s
    ensures s.Valid()
    ensures Appended(old(s.messages), s.messages, Gullie, [Render(s.host, MovingQuotesCard, [])], s.activeThreadId)
    ensures s.timers == old(s.timers) && s.steps == old(s.steps) && s.plan == old(s.plan)
    ensures s.threads == TouchedBy(old(s.threads), s.activeThreadId, [Render(s.host, MovingQuotesCard, [])], s.activeThreadId, s.now, s.host.stripHtml)
    ensures s.Followed(old(s.messages), old(s.threads))
    ensures s.activeThreadId == old(s.activeThreadId) && s.now == old(s.now)
  {
    PostAll(s, [Render(s.host, MovingQuotesCard, [])]);
  }

  method HandleInventoryWorkflow(s: Store)
    requires s.Valid()
    modifies s
    ensures s.Valid()
    ensures Appended(old(s.messages), s.messages, Gullie, [Render(s.host, InventoryCard, [])], s.activeThreadId)
    ensures s.timers == old(s.timers) && s.steps == old(s.steps) && s.plan == old(s.plan)
    ensures s.threads == TouchedBy(old(s.threads), s.activeThreadId, [Render(s.host, InventoryCard, [])], s.activeThreadId, s.now, s.host.stripHtml)
    ensures s.Followed(old(s.messages), old(s.threads))
    ensures s.activeThreadId == old(s.activeThreadId) && s.now == old(s.now)
  {
    PostAll(s, [Render(s.host, InventoryCard, [])]);
  }

  method HandleImmigrationWorkflow(s: Store)
    requires s.Valid()
    modifies s
    ensures s.Valid()
    ensures Appended(old(s.messages), s.messages, Gullie, ["", Render(s.host, ImmigrationWorkflowCard, [])], s.activeThreadId)
    ensures s.timers == old(s.timers) && s.steps == old(s.steps) && s.plan == old(s.plan)
    ensures s.threads == TouchedBy(old(s.threads), s.activeThreadId, ["", Render(s.host, ImmigrationWorkflowCard, [])], s.activeThreadId, s.now, s.host.stripHtml)
    ensures s.Followed(old(s.messages), old(s.threads))
    ensures s.activeThreadId == old(s.activeThreadId) && s.now == old(s.now)
  {
    PostAll(s, ["", Render(s.host, ImmigrationWorkflowCard, [])]);
  }

  method HandleAllServicesOverview(s: Store)
    requires s.Valid()
    modifies s
    ensures s.Valid()
    ensures Appended(old(s.messages), s.messages, Gullie, ["", Render(s.host, AllServicesCard, [])], s.activeThreadId)
    ensures s.timers == old(s.timers) && s.steps == old(s.steps) && s.plan == old(s.plan)
    ensures s.threads == TouchedBy(old(s.threads), s.activeThreadId, ["", Render(s.host, AllServicesCard, [])], s.activeThreadId, s.now, s.host.stripHtml)
    ensures s.Followed(old(s.messages), old(s.threads))
    ensures s.activeThreadId == old(s.activeThreadId) && s.now == old(s.now)
  {
    PostAll(s, ["", Render(s.host, AllServicesCard, [])]);
  }
}
