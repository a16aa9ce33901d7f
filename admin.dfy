/**
 * The administrator's dashboard: the user list with the vendors derived from it, platform
 * counters taken at load, a queue of vendor applications, and a per-user action that
 * suspends an active user or activates any other.
 */
module Admin {
  import opened Common
  import opened Seqs
  import opened Products

  datatype User = User(id: int, name: string, email: string, role: string, status: string)

  datatype VendorApplication = VendorApplication(
    id: int,
    name: string,
    email: string,
    storeName: string,
    storeDescription: string,
    applicationDate: string,
    status: string)

  function UserId(u: User): int { u.id }
  function ApplicationId(a: VendorApplication): int { a.id }

  /** The platform counters; revenue in cents. */
  datatype AdminStats = AdminStats(
    totalUsers: int,
    totalVendors: int,
    totalProducts: int,
    totalRevenue: int,
    pendingApprovals: int,
    activeOrders: int)

  predicate IsVendor(u: User) { u.role == "vendor" }

  predicate IsActive(u: User) { u.status == "active" }

  /** `usersData.filter((user) => user.role === "vendor")`. */
  function VendorsOf(users: seq<User>): seq<User> { Filter(users, IsVendor) }

  /** The vendor list is exactly the users whose role is "vendor", in their order. */
  lemma VendorsExactly(users: seq<User>)
    ensures forall u :: u in VendorsOf(users) <==> u in users && u.role == "vendor"
    ensures IsSubsequence(VendorsOf(users), users)
  {
    FilterIsSubsequence(users, IsVendor);
  }

  /** The counters the load step computes; revenue ($125,750.50) and active orders (23) are fixed. */
  function LoadStats(users: seq<User>, products: seq<Product>, applications: seq<VendorApplication>): AdminStats {
    AdminStats(|users|, |VendorsOf(users)|, |products|, 12575050, |applications|, 23)
  }

  /** After loading, the totals are the sizes of the lists they count, and there are no more vendors than users. */
  lemma LoadStatsAgree(users: seq<User>, products: seq<Product>, applications: seq<VendorApplication>)
    ensures LoadStats(users, products, applications).totalUsers == |users|
    ensures LoadStats(users, products, applications).totalVendors == |Filter(users, IsVendor)|
    ensures LoadStats(users, products, applications).totalVendors <= LoadStats(users, products, applications).totalUsers
    ensures LoadStats(users, products, applications).totalProducts == |products|
    ensures LoadStats(users, products, applications).pendingApprovals == |applications|
  {
  }

  /**
   * `handleVendorApproval(vendorId, approved)`: the application leaves the queue and the
   * pending counter drops by one; `approved` only chooses what is logged.
   */
  function AfterApproval(applications: seq<VendorApplication>, stats: AdminStats, vendorId: int, approved: bool)
    : (seq<VendorApplication>, AdminStats)
  {
    (WithoutKey(applications, ApplicationId, vendorId), stats.(pendingApprovals := stats.pendingApprovals - 1))
  }

  /**
   * Approving and rejecting have the same effect; for a queued application (ids unique)
   * it removes exactly that one and keeps the pending counter equal to the queue length.
   */
  lemma ApprovalProperties(applications: seq<VendorApplication>, stats: AdminStats, vendorId: int)
    ensures AfterApproval(applications, stats, vendorId, true) == AfterApproval(applications, stats, vendorId, false)
    ensures forall a :: a in AfterApproval(applications, stats, vendorId, true).0 <==> a in applications && a.id != vendorId
    ensures stats.pendingApprovals == |applications| && UniqueKeys(applications, ApplicationId) && HasKey(applications, ApplicationId, vendorId)
      ==> AfterApproval(applications, stats, vendorId, true).1.pendingApprovals == |AfterApproval(applications, stats, vendorId, true).0|
  {
    if UniqueKeys(applications, ApplicationId) && HasKey(applications, ApplicationId, vendorId) {
      WithoutUniqueKeyLength(applications, ApplicationId, vendorId);
    }
  }

  /** `handleUserStatusChange(userId, newStatus)`. */
  function SetUserStatus(users: seq<User>, userId: int, newStatus: string): seq<User> {
    UpdateKey(users, UserId, userId, (u: User) => u.(status := newStatus))
  }

  /** Only the matching users' status changes; the length, the order and every other field are kept. */
  lemma SetUserStatusChangesOnlyStatus(users: seq<User>, userId: int, newStatus: string)
    ensures |SetUserStatus(users, userId, newStatus)| == |users|
    ensures forall i :: 0 <= i < |users| ==>
      && SetUserStatus(users, userId, newStatus)[i].(status := users[i].status) == users[i]
      && SetUserStatus(users, userId, newStatus)[i].status == (if users[i].id == userId then newStatus else users[i].status)
  {
  }

  /** The user menu: "Suspend User" for an active user, "Activate User" for any other. */
  function OfferedStatus(status: string): string {
    if status == "active" then "suspended" else "active"
  }

  /**
   * The "Active Users" figure: the number of users whose status is "active" (counted one
   * by one), so at most the number of users, and zero exactly when no user is active.
   */
  function ActiveCount(users: seq<User>): (r: nat)
    ensures r == Count(users, IsActive)
    ensures r <= |users|
    ensures r == 0 <==> forall u :: u in users ==> u.status != "active"
  {
    var active := Filter(users, IsActive);
    FilterCount(users, IsActive);
    assert |active| > 0 ==> active[0] in active;
    |active|
  }

  /**
   * The menu action on a user (ids unique) flips whether that user counts as active, so
   * the active count drops by one for an active user and rises by one for any other.
   */
  lemma MenuActionShiftsActiveCount(users: seq<User>, i: int)
    requires UniqueKeys(users, UserId) && 0 <= i < |users|
    ensures IsActive(users[i]) ==> ActiveCount(SetUserStatus(users, users[i].id, OfferedStatus(users[i].status))) == ActiveCount(users) - 1
    ensures !IsActive(users[i]) ==> ActiveCount(SetUserStatus(users, users[i].id, OfferedStatus(users[i].status))) == ActiveCount(users) + 1
  {
    var s := OfferedStatus(users[i].status);
    var f := (u: User) => u.(status := s);
    assert SetUserStatus(users, users[i].id, s) == UpdateKey(users, UserId, users[i].id, f);
    CountAfterUpdate(users, UserId, users[i].id, f, IsActive, i);
  }

  class AdminDashboard {
    var users: seq<User>
    var vendors: seq<User>
    var products: seq<Product>
    var pendingVendors: seq<VendorApplication>
    var stats: AdminStats

    constructor ()
      ensures users == [] && vendors == [] && products == [] && pendingVendors == []
      ensures stats == AdminStats(0, 0, 0, 0, 0, 0)
    {
      users, vendors, products, pendingVendors := [], [], [], [];
      stats := AdminStats(0, 0, 0, 0, 0, 0);
    }

    /**
     * The load effect with what the two fetches returned (`None` when either failed, which
     * is only logged) and the page's own application fixture.
     */
    method Load(fetched: Option<(seq<User>, seq<Product>)>, applications: seq<VendorApplication>)
      modifies this
      ensures fetched.Some? ==>
        && users == fetched.value.0 && vendors == VendorsOf(fetched.value.0) && products == fetched.value.1
        && pendingVendors == applications && stats == LoadStats(fetched.value.0, fetched.value.1, applications)
      ensures fetched.None? ==>
        && users == old(users) && vendors == old(vendors) && products == old(products)
        && pendingVendors == old(pendingVendors) && stats == old(stats)
    {
      if fetched.Some? {
        var (usersData, productsData) := fetched.value;
        users := usersData;
        vendors := VendorsOf(usersData);
        products := productsData;
        pendingVendors := applications;
        stats := LoadStats(usersData, productsData, applications);
      }
    }

    method HandleVendorApproval(vendorId: int, approved: bool)
      modifies this
      ensures (pendingVendors, stats) == AfterApproval(old(pendingVendors), old(stats), vendorId, approved)
      ensures users == old(users) && vendors == old(vendors) && products == old(products)
    {
      var after := AfterApproval(pendingVendors, stats, vendorId, approved);
      pendingVendors, stats := after.0, after.1;
    }

    /** The vendor list is not re-derived, so a vendor's status there keeps its load-time value. */
    method HandleUserStatusChange(userId: int, newStatus: string)
      modifies this
      ensures users == SetUserStatus(old(users), userId, newStatus)
      ensures vendors == old(vendors) && products == old(products) && pendingVendors == old(pendingVendors) && stats == old(stats)
    {
      users := SetUserStatus(users, userId, newStatus);
    }
  }
}
