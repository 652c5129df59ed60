/** Which limit applies to whom (`internal/shared/middleware/rate_limiter.go`). */
module RateLimits {
  import opened SlidingWindow

  datatype Category = General | Login | Deploy | Ceiling

  datatype Config = Config(authenticated: int, unauthenticated: int, login: int, deploy: int, ipCeiling: int) {
    /** A ceiling so low that one user reaches it before their own limit. */
    predicate CeilingBelowUserLimit() {
      ipCeiling < Max(authenticated, unauthenticated)
    }
  }

  const DEFAULTS := Config(300, 30, 10, 10, 600)

  function Max(a: int, b: int): int {
    if a < b then b else a
  }

  function Or(value: int, default: int): int {
    if value > 0 then value else default
  }

  method ConfigForMode(mode: string, overrides: Config) returns (cfg: Config)
    ensures cfg.login == 10 && cfg.deploy == 10
    ensures cfg.authenticated == (if overrides.authenticated > 0 then overrides.authenticated else 300)
    ensures cfg.unauthenticated ==
            if overrides.unauthenticated > 0 then overrides.unauthenticated
            else if mode == "development" then cfg.authenticated else 30
    ensures overrides.ipCeiling > 0 ==> cfg.ipCeiling == overrides.ipCeiling
    ensures cfg.CeilingBelowUserLimit() <==>
            && 0 < overrides.ipCeiling
            && (overrides.ipCeiling < cfg.authenticated || overrides.ipCeiling < cfg.unauthenticated)
    ensures overrides.ipCeiling <= 0 ==>
              && cfg.ipCeiling in {600, 2 * cfg.authenticated, cfg.unauthenticated}
              && cfg.ipCeiling >= 600 && cfg.ipCeiling >= 2 * cfg.authenticated
              && cfg.ipCeiling >= cfg.unauthenticated
  {
    cfg := DEFAULTS;
    if overrides.authenticated > 0 { cfg := cfg.(authenticated := overrides.authenticated); }
    if overrides.unauthenticated > 0 { cfg := cfg.(unauthenticated := overrides.unauthenticated); }
    if mode == "development" && overrides.unauthenticated <= 0 { cfg := cfg.(unauthenticated := cfg.authenticated); }
    if overrides.ipCeiling > 0 {
      cfg := cfg.(ipCeiling := overrides.ipCeiling);
    } else {
      cfg := cfg.(ipCeiling := Max(cfg.ipCeiling, Max(2 * cfg.authenticated, cfg.unauthenticated)));
    }
  }

  function WindowFor(category: Category): (w: int)
    ensures w > 0
  {
    if category == Deploy then 3600 * SECOND else 60 * SECOND
  }

  datatype Caller = Caller(userId: string, orgId: string, ip: string)

  /** The key a request is counted under, and its limit. */
  function KeyAndLimit(c: Caller, category: Category, cfg: Config): (r: (string, int))
    ensures r.1 > 0
  {
    match category
    case Ceiling => ("ipceiling:" + c.ip, Or(cfg.ipCeiling, DEFAULTS.ipCeiling))
    case Deploy => (if c.orgId != "" then "org:" + c.orgId else "ip:" + c.ip, Or(cfg.deploy, DEFAULTS.deploy))
    case Login => ("ip:" + c.ip, Or(cfg.login, DEFAULTS.login))
    case General =>
      if c.userId != "" then ("user:" + c.userId, Or(cfg.authenticated, DEFAULTS.authenticated))
      else ("ip:" + c.ip, Or(cfg.unauthenticated, DEFAULTS.unauthenticated))
  }

  /** Requests counted under one key by one limiter all carry the same limit, whoever makes them; so the bound on a
      window applies to every key. */
  lemma OneLimitPerKey(a: Caller, b: Caller, category: Category, cfg: Config)
    requires KeyAndLimit(a, category, cfg).0 == KeyAndLimit(b, category, cfg).0
    ensures KeyAndLimit(a, category, cfg).1 == KeyAndLimit(b, category, cfg).1
  {
    if category == General {
      assert a.userId != "" ==> KeyAndLimit(a, category, cfg).0[0] == 'u';
      assert a.userId == "" ==> KeyAndLimit(a, category, cfg).0[0] == 'i';
      assert b.userId != "" ==> KeyAndLimit(b, category, cfg).0[0] == 'u';
      assert b.userId == "" ==> KeyAndLimit(b, category, cfg).0[0] == 'i';
    }
  }

  /** The requests of one limiter, as it sees them. */
  function Seen(calls: seq<(Caller, int)>, category: Category, cfg: Config): seq<Op> {
    seq(|calls|, i requires 0 <= i < |calls| =>
      var (key, limit) := KeyAndLimit(calls[i].0, category, cfg); Request(key, limit, calls[i].1))
  }

  /** However callers share addresses and identities, no window holds more accepted requests of any key than the limit
      its callers have. */
  lemma NobodyExceeds(calls: seq<(Caller, int)>, category: Category, cfg: Config, who: Caller, lo: int,
                      closedBelow: bool)
    requires forall i, j | 0 <= i < j < |calls| :: calls[i].1 <= calls[j].1
    ensures Positive(Seen(calls, category, cfg))
    ensures var (key, limit) := KeyAndLimit(who, category, cfg); var window := WindowFor(category);
            |Within(Accepted(Seen(calls, category, cfg), key, window), lo, lo + window, closedBelow)| <= limit
  {
    var ops := Seen(calls, category, cfg);
    var (key, limit) := KeyAndLimit(who, category, cfg);
    forall i | 0 <= i < |ops| && ops[i].key == key ensures ops[i].limit == limit {
      OneLimitPerKey(calls[i].0, who, category, cfg);
    }
    WindowBound(ops, key, limit, WindowFor(category), lo, closedBelow);
  }

  // ---- who shares with whom ------------------------------------------------------------------------------------

  /** Whose requests count together. */
  predicate Shares(a: Caller, b: Caller, category: Category) {
    match category
    case Ceiling => a.ip == b.ip
    case Login => a.ip == b.ip
    case Deploy => if a.orgId != "" then a.orgId == b.orgId else b.orgId == "" && a.ip == b.ip
    case General => if a.userId != "" then a.userId == b.userId else b.userId == "" && a.ip == b.ip
  }

  lemma SameTail(head: string, x: string, y: string)
    ensures head + x == head + y <==> x == y
  {
    if head + x == head + y {
      assert x == (head + x)[|head|..] && y == (head + y)[|head|..];
    }
  }

  /** Two callers count under one key exactly if they share what their requests are counted by. */
  lemma SameKeyIff(a: Caller, b: Caller, category: Category, cfg: Config)
    ensures KeyAndLimit(a, category, cfg).0 == KeyAndLimit(b, category, cfg).0 <==> Shares(a, b, category)
  {
    SameTail("ipceiling:", a.ip, b.ip);
    SameTail("ip:", a.ip, b.ip);
    SameTail("org:", a.orgId, b.orgId);
    SameTail("user:", a.userId, b.userId);
    assert ("ip:" + a.ip)[0] == 'i' && ("ip:" + b.ip)[0] == 'i';
    assert ("org:" + a.orgId)[0] == 'o' && ("org:" + b.orgId)[0] == 'o';
    assert ("user:" + a.userId)[0] == 'u' && ("user:" + b.userId)[0] == 'u';
  }

  /** The limit a request is counted against, in requests of a minute, or of an hour for deployments. */
  lemma LimitByCategory(c: Caller, category: Category, cfg: Config)
    requires cfg.authenticated > 0 && cfg.unauthenticated > 0 && cfg.login > 0 && cfg.deploy > 0 && cfg.ipCeiling > 0
    ensures KeyAndLimit(c, category, cfg).1 ==
            match category
            case Ceiling => cfg.ipCeiling
            case Login => cfg.login
            case Deploy => cfg.deploy
            case General => if c.userId == "" then cfg.unauthenticated else cfg.authenticated
    ensures WindowFor(category) == if category == Deploy then 3_600_000_000_000 else 60_000_000_000
  {
  }

  /** The calls of those who share with this caller. */
  function Sharing(calls: seq<(Caller, int)>, who: Caller, category: Category): seq<(Caller, int)> {
    if calls == [] then []
    else
      var last := calls[|calls| - 1];
      Sharing(calls[..|calls| - 1], who, category) + if Shares(last.0, who, category) then [last] else []
  }

  lemma SeenSnoc(calls: seq<(Caller, int)>, call: (Caller, int), category: Category, cfg: Config)
    ensures Seen(calls + [call], category, cfg) ==
            Seen(calls, category, cfg) + [Request(KeyAndLimit(call.0, category, cfg).0,
                                                  KeyAndLimit(call.0, category, cfg).1, call.1)]
    ensures Positive(Seen(calls, category, cfg)) && Positive(Seen(calls + [call], category, cfg))
  {
  }

  /** Those who do not share with a caller change nothing for it: what was accepted under its key, and with it every
      decision, is as if they had never called. */
  lemma {:induction false} OthersDoNotMatter(calls: seq<(Caller, int)>, who: Caller, category: Category, cfg: Config)
    ensures Positive(Seen(calls, category, cfg)) && Positive(Seen(Sharing(calls, who, category), category, cfg))
    ensures var key, window := KeyAndLimit(who, category, cfg).0, WindowFor(category);
            Accepted(Seen(calls, category, cfg), key, window) ==
            Accepted(Seen(Sharing(calls, who, category), category, cfg), key, window)
  {
    if calls != [] {
      var init, last := calls[..|calls| - 1], calls[|calls| - 1];
      var few := Sharing(init, who, category);
      var (key, limit) := KeyAndLimit(last.0, category, cfg);
      OthersDoNotMatter(init, who, category, cfg);
      SameKeyIff(last.0, who, category, cfg);
      assert calls == init + [last];
      assert Sharing(calls, who, category) == if Shares(last.0, who, category) then few + [last] else few;
      SeenSnoc(init, last, category, cfg);
      SeenSnoc(few, last, category, cfg);
      AcceptedSnoc(Seen(init, category, cfg), Request(key, limit, last.1), KeyAndLimit(who, category, cfg).0,
                   WindowFor(category));
      AcceptedSnoc(Seen(few, category, cfg), Request(key, limit, last.1), KeyAndLimit(who, category, cfg).0,
                   WindowFor(category));
    }
  }

  /** So a user's decisions are what they would be if no other user had ever called. */
  lemma UsersApart(calls: seq<(Caller, int)>, category: Category, cfg: Config, who: Caller, now: int)
    requires category == General && who.userId != ""
    ensures var (key, limit), window := KeyAndLimit(who, category, cfg), WindowFor(category);
            && Positive(Seen(calls, category, cfg)) && Positive(Seen(Sharing(calls, who, category), category, cfg))
            && Decide(Accepted(Seen(calls, category, cfg), key, window), limit, now, window) ==
               Decide(Accepted(Seen(Sharing(calls, who, category), category, cfg), key, window), limit, now, window)
    ensures forall call | call in Sharing(calls, who, category) :: call.0.userId == who.userId
  {
    OthersDoNotMatter(calls, who, category, cfg);
    forall call | call in Sharing(calls, who, category) ensures call.0.userId == who.userId {
      SharingOnly(calls, who, category, call);
    }
  }

  lemma {:induction false} SharingOnly(calls: seq<(Caller, int)>, who: Caller, category: Category, call: (Caller, int))
    requires call in Sharing(calls, who, category)
    ensures call in calls && Shares(call.0, who, category)
  {
    var init := calls[..|calls| - 1];
    if call in Sharing(init, who, category) { SharingOnly(init, who, category, call); }
  }
}
