/**
 * The partition balancer selection of internal/stream/factory.go
 * (createBalancer): the writer's configured balancer name picks one of the
 * Kafka client's balancers, and every other name falls back to LeastBytes.
 */
module Stream {

  datatype Balancer =
    | RoundRobin   // classical round robin
    | LeastBytes   // the partition that received the least bytes
    | Hash         // FNV-1a hash of the key
    | Crc32        // CRC32 hash of the key
    | Murmur2      // Murmur2 hash of the key

  /** The names the selection recognises. */
  const KnownNames: set<string> := {"roundrobin", "leastbytes", "hash", "crc32", "murmur2"}

  /**
   * createBalancer: total, case-sensitive, with LeastBytes as the default.
   * Each balancer other than LeastBytes is chosen by exactly one name;
   * LeastBytes is chosen by "leastbytes" and by every unknown name.
   */
  function CreateBalancer(name: string): (b: Balancer)
    ensures b == RoundRobin <==> name == "roundrobin"
    ensures b == Hash <==> name == "hash"
    ensures b == Crc32 <==> name == "crc32"
    ensures b == Murmur2 <==> name == "murmur2"
    ensures b == LeastBytes <==> name == "leastbytes" || name !in KnownNames
  {
    match name
    case "roundrobin" => RoundRobin
    case "leastbytes" => LeastBytes
    case "hash" => Hash
    case "crc32" => Crc32
    case "murmur2" => Murmur2
    case _ => LeastBytes
  }

  /** The configuration name that selects a balancer. */
  function BalancerName(b: Balancer): (name: string)
    ensures name in KnownNames
  {
    match b
    case RoundRobin => "roundrobin"
    case LeastBytes => "leastbytes"
    case Hash => "hash"
    case Crc32 => "crc32"
    case Murmur2 => "murmur2"
  }

  /** Every balancer is reachable: its own name selects it. */
  lemma SelectByName(b: Balancer)
    ensures CreateBalancer(BalancerName(b)) == b
  {
  }

  /** Names are compared exactly: other spellings, and the empty name, fall back to LeastBytes. */
  lemma SelectionIsCaseSensitive()
    ensures CreateBalancer("RoundRobin") == LeastBytes
    ensures CreateBalancer("HASH") == LeastBytes
    ensures CreateBalancer("") == LeastBytes
  {
  }
}
