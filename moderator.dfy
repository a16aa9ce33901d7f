/**
 * The moderator's dashboard: a queue of reviews awaiting approval, a queue of flagged
 * products, a queue of reported content, and four counters. Acting on an entry removes it
 * from its queue and adjusts the counters, whether or not the entry was there.
 */
module Moderator {
  import opened Common
  import opened Seqs

  datatype Review = Review(id: int, productName: string, customerName: string, rating: int, comment: string, status: string)

  datatype FlaggedProduct = FlaggedProduct(id: int, name: string, vendorName: string, reason: string, status: string)

  datatype ReportedItem = ReportedItem(id: int, kind: string, content: string, reportedBy: string, reason: string, status: string)

  function ReviewId(r: Review): int { r.id }
  function FlaggedId(p: FlaggedProduct): int { p.id }
  function ReportedId(c: ReportedItem): int { c.id }

  datatype ModeratorStats = ModeratorStats(pendingReviews: int, flaggedContent: int, approvedToday: int, rejectedToday: int)

  /** The counters set on mount: the queue sizes, and the fixed 12 approved and 3 rejected today. */
  function InitialStats(reviews: seq<Review>, flagged: seq<FlaggedProduct>, reported: seq<ReportedItem>): ModeratorStats {
    ModeratorStats(|reviews|, |flagged| + |reported|, 12, 3)
  }

  /** The queue counters agree with the queues. */
  ghost predicate CountsAgree(stats: ModeratorStats, reviews: seq<Review>, flagged: seq<FlaggedProduct>, reported: seq<ReportedItem>) {
    stats.pendingReviews == |reviews| && stats.flaggedContent == |flagged| + |reported|
  }

  lemma InitialCountsAgree(reviews: seq<Review>, flagged: seq<FlaggedProduct>, reported: seq<ReportedItem>)
    ensures CountsAgree(InitialStats(reviews, flagged, reported), reviews, flagged, reported)
  {
  }

  /** The queue after `handleReviewAction(reviewId, ...)`. */
  function RemoveReview(reviews: seq<Review>, reviewId: int): seq<Review> {
    WithoutKey(reviews, ReviewId, reviewId)
  }

  /** The counters after `handleReviewAction(..., action)`. */
  function ReviewStats(stats: ModeratorStats, action: string): ModeratorStats {
    stats.(pendingReviews := stats.pendingReviews - 1,
           approvedToday := if action == "approve" then stats.approvedToday + 1 else stats.approvedToday,
           rejectedToday := if action == "reject" then stats.rejectedToday + 1 else stats.rejectedToday)
  }

  /**
   * A review action lowers the pending counter by one and leaves the flagged counter; an
   * approval raises only the approved counter and a rejection only the rejected one.
   */
  lemma ReviewActionCounters(stats: ModeratorStats, action: string)
    ensures ReviewStats(stats, action).pendingReviews == stats.pendingReviews - 1
    ensures ReviewStats(stats, action).flaggedContent == stats.flaggedContent
    ensures action == "approve" ==>
      ReviewStats(stats, action).approvedToday == stats.approvedToday + 1 && ReviewStats(stats, action).rejectedToday == stats.rejectedToday
    ensures action == "reject" ==>
      ReviewStats(stats, action).rejectedToday == stats.rejectedToday + 1 && ReviewStats(stats, action).approvedToday == stats.approvedToday
    ensures action != "approve" && action != "reject" ==>
      ReviewStats(stats, action).approvedToday == stats.approvedToday && ReviewStats(stats, action).rejectedToday == stats.rejectedToday
  {
  }

  /**
   * Acting on a review that is in the queue (ids unique) removes exactly that review and
   * keeps the counters in agreement with the queues.
   */
  lemma ReviewActionKeepsCountsAgreeing(stats: ModeratorStats, reviews: seq<Review>, flagged: seq<FlaggedProduct>,
                                        reported: seq<ReportedItem>, reviewId: int, action: string)
    requires CountsAgree(stats, reviews, flagged, reported)
    requires UniqueKeys(reviews, ReviewId) && HasKey(reviews, ReviewId, reviewId)
    ensures forall r :: r in RemoveReview(reviews, reviewId) <==> r in reviews && r.id != reviewId
    ensures CountsAgree(ReviewStats(stats, action), RemoveReview(reviews, reviewId), flagged, reported)
  {
    WithoutUniqueKeyLength(reviews, ReviewId, reviewId);
  }

  /** Acting on a review id that is not queued leaves the queue but still lowers the counter, which then disagrees. */
  lemma ReviewActionOnAbsentId(stats: ModeratorStats, reviews: seq<Review>, flagged: seq<FlaggedProduct>,
                               reported: seq<ReportedItem>, reviewId: int, action: string)
    requires CountsAgree(stats, reviews, flagged, reported) && !HasKey(reviews, ReviewId, reviewId)
    ensures RemoveReview(reviews, reviewId) == reviews
    ensures !CountsAgree(ReviewStats(stats, action), RemoveReview(reviews, reviewId), flagged, reported)
  {
    WithoutAbsentKey(reviews, ReviewId, reviewId);
  }

  /** The two content queues after `handleContentAction(contentId, action, type)`: "product" filters the flagged products, any other type the reported content. */
  function ContentQueues(flagged: seq<FlaggedProduct>, reported: seq<ReportedItem>, contentId: int, kind: string)
    : (seq<FlaggedProduct>, seq<ReportedItem>)
  {
    if kind == "product" then (WithoutKey(flagged, FlaggedId, contentId), reported)
    else (flagged, WithoutKey(reported, ReportedId, contentId))
  }

  /** The counters after a content action: one less flagged, unconditionally. */
  function ContentStats(stats: ModeratorStats): ModeratorStats {
    stats.(flaggedContent := stats.flaggedContent - 1)
  }

  /**
   * A content action touches only the queue its type names, and, when the id is in that
   * queue (ids unique), keeps the counters in agreement with the queues.
   */
  lemma ContentActionKeepsCountsAgreeing(stats: ModeratorStats, reviews: seq<Review>, flagged: seq<FlaggedProduct>,
                                         reported: seq<ReportedItem>, contentId: int, kind: string)
    requires CountsAgree(stats, reviews, flagged, reported)
    requires kind == "product" ==> UniqueKeys(flagged, FlaggedId) && HasKey(flagged, FlaggedId, contentId)
    requires kind != "product" ==> UniqueKeys(reported, ReportedId) && HasKey(reported, ReportedId, contentId)
    ensures kind == "product" ==> ContentQueues(flagged, reported, contentId, kind).1 == reported
    ensures kind != "product" ==> ContentQueues(flagged, reported, contentId, kind).0 == flagged
    ensures CountsAgree(ContentStats(stats), reviews, ContentQueues(flagged, reported, contentId, kind).0,
                        ContentQueues(flagged, reported, contentId, kind).1)
  {
    if kind == "product" {
      WithoutUniqueKeyLength(flagged, FlaggedId, contentId);
    } else {
      WithoutUniqueKeyLength(reported, ReportedId, contentId);
    }
  }

  /**
   * A "product" action on an id that is not flagged leaves both queues as they were but
   * still lowers the flagged counter, which then disagrees with the queues.
   */
  lemma ContentActionOnAbsentId(stats: ModeratorStats, reviews: seq<Review>, flagged: seq<FlaggedProduct>,
                                reported: seq<ReportedItem>, contentId: int)
    requires CountsAgree(stats, reviews, flagged, reported) && !HasKey(flagged, FlaggedId, contentId)
    ensures ContentQueues(flagged, reported, contentId, "product") == (flagged, reported)
    ensures !CountsAgree(ContentStats(stats), reviews, flagged, reported)
  {
    WithoutAbsentKey(flagged, FlaggedId, contentId);
  }

  class ModeratorDashboard {
    var stats: ModeratorStats
    var pendingReviews: seq<Review>
    var flaggedProducts: seq<FlaggedProduct>
    var reportedContent: seq<ReportedItem>

    /** The mount effect: the page's own three fixtures and the counters taken from them. */
    constructor (reviews: seq<Review>, flagged: seq<FlaggedProduct>, reported: seq<ReportedItem>)
      ensures pendingReviews == reviews && flaggedProducts == flagged && reportedContent == reported
      ensures stats == InitialStats(reviews, flagged, reported)
      ensures CountsAgree(stats, pendingReviews, flaggedProducts, reportedContent)
    {
      pendingReviews, flaggedProducts, reportedContent := reviews, flagged, reported;
      stats := InitialStats(reviews, flagged, reported);
    }

    /** `handleReviewAction(reviewId, action)`; the logged reason is not modelled. */
    method HandleReviewAction(reviewId: int, action: string)
      modifies this
      ensures pendingReviews == RemoveReview(old(pendingReviews), reviewId)
      ensures stats == ReviewStats(old(stats), action)
      ensures flaggedProducts == old(flaggedProducts) && reportedContent == old(reportedContent)
      ensures old(CountsAgree(stats, pendingReviews, flaggedProducts, reportedContent))
        && UniqueKeys(old(pendingReviews), ReviewId) && HasKey(old(pendingReviews), ReviewId, reviewId)
        ==> CountsAgree(stats, pendingReviews, flaggedProducts, reportedContent)
    {
      if CountsAgree(stats, pendingReviews, flaggedProducts, reportedContent)
        && UniqueKeys(pendingReviews, ReviewId) && HasKey(pendingReviews, ReviewId, reviewId) {
        ReviewActionKeepsCountsAgreeing(stats, pendingReviews, flaggedProducts, reportedContent, reviewId, action);
      }
      pendingReviews := RemoveReview(pendingReviews, reviewId);
      stats := ReviewStats(stats, action);
    }

    /** `handleContentAction(contentId, action, type)`; approving and removing have the same effect. */
    method HandleContentAction(contentId: int, kind: string)
      modifies this
      ensures (flaggedProducts, reportedContent) == ContentQueues(old(flaggedProducts), old(reportedContent), contentId, kind)
      ensures stats == ContentStats(old(stats)) && pendingReviews == old(pendingReviews)
    {
      var queues := ContentQueues(flaggedProducts, reportedContent, contentId, kind);
      flaggedProducts, reportedContent := queues.0, queues.1;
      stats := ContentStats(stats);
    }
  }
}
