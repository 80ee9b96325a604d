/** Configurations as the shard controller numbers them and the shard servers follow them. */
module ShardConfig {

  /** Group `shards[s]` holds shard `s`; gid 0 is nobody. */
  datatype Config = Config(num: int, shards: seq<int>, groups: map<int, seq<string>>)

  /** The config every controller starts from: `n` shards on nobody. */
  function FirstConfig(n: nat): (c: Config)
    ensures |c.shards| == n && forall s :: 0 <= s < n ==> c.shards[s] == 0
  {
    Config(0, seq(n, _ => 0), map[])
  }

  predicate Numbered(configs: seq<Config>) {
    forall i :: 0 <= i < |configs| ==> configs[i].num == i
  }

  /** What a controller holding `configs` answers for number `num`. */
  function QueryConfig(configs: seq<Config>, num: int): Config
    requires 0 < |configs| && -1 <= num
  {
    if num == -1 || num >= |configs| then configs[|configs| - 1] else configs[num]
  }

  /** A numbered history never answers with a number above the one asked for, and an answer above
      `num - 1` is exactly config `num`. */
  lemma QueryNeverAbove(configs: seq<Config>, num: nat)
    requires 0 < |configs| && Numbered(configs)
    ensures QueryConfig(configs, num).num <= num
    ensures QueryConfig(configs, num).num > num - 1 <==> num < |configs|
    ensures num < |configs| ==> QueryConfig(configs, num) == configs[num]
  {
  }

  /** What is asked for: config `num` if there is one, the newest for -1 or a number not reached yet. */
  ghost predicate Answers(configs: seq<Config>, num: int, c: Config) {
    && c in configs
    && if num == -1 || num >= |configs| then forall x :: x in configs ==> x.num <= c.num else c.num == num
  }

  /** The answer is the one config that fits the question. */
  lemma QueryAnswers(configs: seq<Config>, num: int, c: Config)
    requires 0 < |configs| && Numbered(configs) && -1 <= num
    ensures Answers(configs, num, c) <==> c == QueryConfig(configs, num)
  {
    var q := QueryConfig(configs, num);
    assert q in configs;
    if Answers(configs, num, c) {
      var i :| 0 <= i < |configs| && configs[i] == c;
      assert configs[|configs| - 1] in configs;
    }
  }
}
