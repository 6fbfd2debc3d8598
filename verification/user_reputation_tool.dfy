/**
 * The findings and risk score of the user reputation tool
 * (src/agents_agno/tools/user_reputation_tool.py). The Redis lookups enter
 * as the answers they gave; the transaction history and the rendered JSON
 * are not modelled.
 */
module UserReputationTool {
  import opened Wrappers
  import opened RiskBands

  /** What Redis answered: the user's flag, their last-hour and last-day counts, the IP's flag. */
  datatype Lookups = Lookups(userFlagged: bool, lastHourCount: int, lastDayCount: int, ipFlagged: bool)

  datatype Finding = UserFlagged | HighVelocity(lastHourCount: int) | IpFlagged

  /** An argument is looked up only when it is given and non-empty. */
  predicate Given(arg: Option<string>) {
    arg.Some? && arg.value != ""
  }

  /** The high-velocity threshold: five transactions in the last hour. */
  const HighVelocityCount: int := 5

  /**
   * The findings in the order the tool appends them: user flag and
   * velocity (both only for a given user), then the IP flag.
   */
  function Findings(userId: Option<string>, ipAddress: Option<string>, redis: Lookups): (fs: seq<Finding>)
    ensures UserFlagged in fs <==> Given(userId) && redis.userFlagged
    ensures HighVelocity(redis.lastHourCount) in fs <==> Given(userId) && redis.lastHourCount >= HighVelocityCount
    ensures IpFlagged in fs <==> Given(ipAddress) && redis.ipFlagged
    ensures forall f :: f in fs && f.HighVelocity? ==> f == HighVelocity(redis.lastHourCount)
    ensures |fs| <= 3
  {
    (if Given(userId) && redis.userFlagged then [UserFlagged] else [])
    + (if Given(userId) && redis.lastHourCount >= HighVelocityCount then [HighVelocity(redis.lastHourCount)] else [])
    + (if Given(ipAddress) && redis.ipFlagged then [IpFlagged] else [])
  }

  predicate AnyFlagged(fs: seq<Finding>) {
    exists i :: 0 <= i < |fs| && (fs[i] == UserFlagged || fs[i] == IpFlagged)
  }

  predicate AnyVelocity(fs: seq<Finding>) {
    exists i :: 0 <= i < |fs| && fs[i].HighVelocity?
  }

  /** 0.5 once for any flag (user, IP or both), 0.3 for high velocity, capped at 1. */
  function RiskScore(fs: seq<Finding>): (s: real)
    ensures s == 0.0 || s == 0.3 || s == 0.5 || s == 0.8
    ensures s >= 0.5 <==> AnyFlagged(fs)
    ensures s == 0.3 || s == 0.8 <==> AnyVelocity(fs)
  {
    var raw := (if AnyFlagged(fs) then 0.5 else 0.0) + (if AnyVelocity(fs) then 0.3 else 0.0);
    if raw <= 1.0 then raw else 1.0
  }

  datatype Assessment = Assessment(riskScore: real, band: Band, findingsCount: nat)

  function Assess(fs: seq<Finding>): (a: Assessment)
    ensures a.findingsCount == |fs|
    ensures a.riskScore == RiskScore(fs) && a.band == BandOf(a.riskScore)
  {
    var s := RiskScore(fs);
    Assessment(s, BandOf(s), |fs|)
  }

  /** The tool's result for one query. */
  function CheckReputation(userId: Option<string>, ipAddress: Option<string>, redis: Lookups): (r: (seq<Finding>, Assessment))
    ensures r.0 == Findings(userId, ipAddress, redis) && r.1 == Assess(r.0)
  {
    var fs := Findings(userId, ipAddress, redis);
    (fs, Assess(fs))
  }

  /**
   * The tool blocks exactly when something is flagged and the user is
   * also busy; a flag alone means manual review, velocity alone is allowed.
   */
  lemma BandOfReputation(userId: Option<string>, ipAddress: Option<string>, redis: Lookups)
    ensures var flagged := (Given(userId) && redis.userFlagged) || (Given(ipAddress) && redis.ipFlagged);
            var busy := Given(userId) && redis.lastHourCount >= HighVelocityCount;
            var band := CheckReputation(userId, ipAddress, redis).1.band;
            && (band == High <==> flagged && busy)
            && (band == Medium <==> flagged && !busy)
            && (band == Low <==> !flagged)
  {
    var fs := Findings(userId, ipAddress, redis);
    var flagged := (Given(userId) && redis.userFlagged) || (Given(ipAddress) && redis.ipFlagged);
    var busy := Given(userId) && redis.lastHourCount >= HighVelocityCount;
    if flagged {
      var i :| 0 <= i < |fs| && (fs[i] == UserFlagged || fs[i] == IpFlagged) by {
        if UserFlagged in fs {
          var i :| 0 <= i < |fs| && fs[i] == UserFlagged;
        } else {
          var i :| 0 <= i < |fs| && fs[i] == IpFlagged;
        }
      }
    }
    if busy {
      var i :| 0 <= i < |fs| && fs[i] == HighVelocity(redis.lastHourCount);
      assert fs[i].HighVelocity?;
    }
    if AnyFlagged(fs) {
      var i :| 0 <= i < |fs| && (fs[i] == UserFlagged || fs[i] == IpFlagged);
      assert fs[i] in fs;
    }
    if AnyVelocity(fs) {
      var i :| 0 <= i < |fs| && fs[i].HighVelocity?;
      assert fs[i] in fs;
    }
  }

  /** With neither a user nor an IP there is nothing to find. */
  lemma EmptyQueryIsClean(redis: Lookups)
    ensures CheckReputation(None, None, redis) == ([], Assessment(0.0, Low, 0))
  {
  }
}
