/** The filter on drives, which remembers its verdict on every file system and mount point. */
module DriveFilter {
  /** A pattern, if one is configured, as the set of names it matches. */
  datatype Pattern = Any | Names(matches: string -> bool)

  /** What a name has to match and what it must not. */
  datatype Rule = Rule(filter: Pattern, exclude: Pattern)

  predicate Passes(rule: Rule, name: string) {
    !(rule.exclude.Names? && rule.exclude.matches(name)) && (rule.filter.Names? ==> rule.filter.matches(name))
  }

  /** The verdicts so far. */
  datatype Cache = Cache(allowed: set<string>, excluded: set<string>)

  predicate Agrees(cache: Cache, rule: Rule) {
    (forall name :: name in cache.allowed ==> Passes(rule, name)) &&
    (forall name :: name in cache.excluded ==> !Passes(rule, name))
  }

  lemma VerdictsAreApart(cache: Cache, rule: Rule)
    requires Agrees(cache, rule)
    ensures cache.allowed !! cache.excluded
  {
  }

  class Filter {
    const types: bv32
    const fsRule: Rule
    const mountRule: Rule
    var fsCache: Cache
    var mountCache: Cache

    ghost predicate Valid()
      reads this
    {
      Agrees(fsCache, fsRule) && Agrees(mountCache, mountRule)
    }

    constructor (types: bv32, fsRule: Rule, mountRule: Rule)
      ensures Valid() && this.types == types && this.fsRule == fsRule && this.mountRule == mountRule
    {
      this.types, this.fsRule, this.mountRule := types, fsRule, mountRule;
      fsCache, mountCache := Cache({}, {}), Cache({}, {});
    }

    /** The answer is that of the rules, whatever was asked before. */
    method IsAllowed(fs: string, mountPoint: string, fsType: bv32) returns (allowed: bool)
      requires Valid()
      modifies this
      ensures Valid()
      ensures allowed <==> types & fsType != 0 && Passes(fsRule, fs) && Passes(mountRule, mountPoint)
    {
      if types & fsType == 0 {
        return false;
      }
      allowed, fsCache := Look(fsRule, fsCache, fs);
      if allowed {
        allowed, mountCache := Look(mountRule, mountCache, mountPoint);
      }
    }
  }

  method Look(rule: Rule, cache: Cache, name: string) returns (allowed: bool, more: Cache)
    requires Agrees(cache, rule)
    ensures Agrees(more, rule) && (allowed <==> Passes(rule, name))
    ensures cache.allowed <= more.allowed && cache.excluded <= more.excluded && name in more.allowed + more.excluded
  {
    more := cache;
    if name in cache.excluded {
      return false, more;
    }
    if name !in cache.allowed {
      if rule.exclude.Names? && rule.exclude.matches(name) {
        more := cache.(excluded := cache.excluded + {name});
        return false, more;
      }
      if rule.filter.Names? && !rule.filter.matches(name) {
        more := cache.(excluded := cache.excluded + {name});
        return false, more;
      }
      more := cache.(allowed := cache.allowed + {name});
    }
    allowed := true;
  }
}
