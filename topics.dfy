/** Fully qualified topic names: `<topic base><device id>/<suffix>`. */
module Topics {

  /** The topic the client publishes a suffix under. The result is laid out
      as the base, then the device id, then a slash, then the suffix. */
  function Topic(base: string, id: string, suffix: string): (t: string)
    ensures |t| == |base| + |id| + 1 + |suffix|
    ensures t[..|base|] == base
    ensures t[|base|..|base| + |id|] == id
    ensures t[|base| + |id|] == '/'
    ensures t[|t| - |suffix|..] == suffix
  {
    base + id + "/" + suffix
  }

  /** Different suffixes never share a topic for the same base and id. */
  lemma SuffixInjective(base: string, id: string, s1: string, s2: string)
    requires Topic(base, id, s1) == Topic(base, id, s2)
    ensures s1 == s2
  {
  }

  /** The three publish topics (color, clock, command) are pairwise distinct. */
  lemma PublishTopicsDistinct(base: string, id: string)
    ensures Topic(base, id, "color") != Topic(base, id, "clock")
    ensures Topic(base, id, "color") != Topic(base, id, "command")
    ensures Topic(base, id, "clock") != Topic(base, id, "command")
  {
  }
}
