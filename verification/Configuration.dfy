/** The configuration of a last-resort gateway and its two matchers (gateways/config.go). */
module Configuration {
  import opened Options
  import opened IPNets
  import opened Routes

  // Table and protocol identifiers are refused above 255, metrics do not fit in more than 32 bits.
  type Identifier = x: int | 0 <= x < 256
  type Metric = x: int | 0 <= x < 0x1_0000_0000

  datatype LRGFrom = LRGFrom(prefix: IPNet, protocol: Option<Identifier>, metric: Option<Metric>, table: Identifier)

  datatype LRGTo = LRGTo(prefix: IPNet, protocol: Identifier, metric: Metric, table: Identifier, blackhole: bool)

  datatype LRG = LRG(from: LRGFrom, to: LRGTo)

  predicate FromMatch(c: LRGFrom, r: Route) {
    && r.dst.Some?
    && IPNetEqual(c.prefix, r.dst.value)
    && (c.protocol.None? || c.protocol.value == ToUint(r.protocol))
    && (c.metric.None? || c.metric.value == ToUint(r.priority))
    && c.table == ToUint(r.table)
  }

  predicate ToMatch(c: LRGTo, r: Route) {
    && r.dst.Some?
    && IPNetEqual(c.prefix, r.dst.value)
    && c.protocol == ToUint(r.protocol)
    && c.metric == ToUint(r.priority)
    && c.table == ToUint(r.table)
  }

  // What the two matchers look for, field by field.
  lemma MatchersReadFields(c: LRG, r: Route)
    ensures FromMatch(c.from, r) <==>
            && r.dst.Some? && Identify(r.dst.value) == Identify(c.from.prefix) && r.table == c.from.table
            && (c.from.protocol.Some? ==> r.protocol == c.from.protocol.value)
            && (c.from.metric.Some? ==> r.priority == c.from.metric.value)
    ensures ToMatch(c.to, r) <==>
            && r.dst.Some? && Identify(r.dst.value) == Identify(c.to.prefix) && r.table == c.to.table
            && r.protocol == c.to.protocol && r.priority == c.to.metric
  {
    if r.dst.Some? {
      IdentityDecidesIPNetEqual(c.from.prefix, r.dst.value);
      IdentityDecidesIPNetEqual(c.to.prefix, r.dst.value);
    }
  }

  // A source route of the gateway: the target is recognised first, so it is never a source.
  predicate Watched(c: LRG, r: Route) {
    FromMatch(c.from, r) && !ToMatch(c.to, r)
  }

  // Both matchers only see what Equal routes share.
  lemma MatchersRespectEqual(c: LRG, a: Route, b: Route)
    requires Id(a) == Id(b)
    ensures FromMatch(c.from, a) <==> FromMatch(c.from, b)
    ensures ToMatch(c.to, a) <==> ToMatch(c.to, b)
  {
    if a.dst.Some? {
      IdentityDecidesIPNetEqual(c.from.prefix, a.dst.value);
      IdentityDecidesIPNetEqual(c.from.prefix, b.dst.value);
      IdentityDecidesIPNetEqual(c.to.prefix, a.dst.value);
      IdentityDecidesIPNetEqual(c.to.prefix, b.dst.value);
    }
  }

  // The routes one gateway can select differ in their slot only by TOS and priority.
  lemma SourcesDifferByTosAndPriority(c: LRG, a: Route, b: Route)
    requires FromMatch(c.from, a) && FromMatch(c.from, b)
    ensures SlotOf(a) == SlotOf(b) <==> a.tos == b.tos && a.priority == b.priority
  {
    IdentityDecidesIPNetEqual(c.from.prefix, a.dst.value);
    IdentityDecidesIPNetEqual(c.from.prefix, b.dst.value);
  }

  // A target route's slot is fixed up to its TOS.
  lemma TargetsDifferByTos(c: LRG, a: Route, b: Route)
    requires ToMatch(c.to, a) && ToMatch(c.to, b)
    ensures SlotOf(a) == SlotOf(b) <==> a.tos == b.tos
  {
    IdentityDecidesIPNetEqual(c.to.prefix, a.dst.value);
    IdentityDecidesIPNetEqual(c.to.prefix, b.dst.value);
  }

  // One gateway in the configuration file: what was written, nothing where nothing was written.
  datatype FromDoc = FromDoc(prefix: Option<IPNet>, protocol: Option<Identifier>,
                             metric: Option<Metric>, table: Option<Identifier>)

  datatype ToDoc = ToDoc(prefix: Option<IPNet>, protocol: Option<Identifier>, metric: Option<Metric>,
                         table: Option<Identifier>, blackhole: Option<bool>)

  datatype Doc = Doc(from: FromDoc, to: ToDoc)

  datatype ConfigError = Undecodable | MissingPrefix | IncompatibleFamilies

  const DEFAULT_TO_METRIC: Metric := 4294967295
  const DEFAULT_TO_PROTOCOL: Identifier := 254
  const DEFAULT_TABLE: Identifier := 254

  // All 128 bits set.
  const PLACEHOLDER: IPNet := IPNet(seq(16, _ => 255), CIDRMask(128, 128))

  // Go's zero values, which the second decoding replaces before anything reads them.
  const NO_PREFIX: IPNet := IPNet([], [])

  function GetOr<T>(given: Option<T>, otherwise: T): T {
    if given.Some? then given.value else otherwise
  }

  function OrElse<T>(given: Option<T>, otherwise: Option<T>): Option<T> {
    if given.Some? then given else otherwise
  }

  /** Decoding a document into a value overwrites the fields the document gives and keeps the others. */
  function Decode(doc: Option<Doc>, raw: LRG): Result<LRG, ConfigError> {
    match doc
    case None => Failure(Undecodable)
    case Some(d) => Success(LRG(
      LRGFrom(GetOr(d.from.prefix, raw.from.prefix), OrElse(d.from.protocol, raw.from.protocol),
              OrElse(d.from.metric, raw.from.metric), GetOr(d.from.table, raw.from.table)),
      LRGTo(GetOr(d.to.prefix, raw.to.prefix), GetOr(d.to.protocol, raw.to.protocol),
            GetOr(d.to.metric, raw.to.metric), GetOr(d.to.table, raw.to.table),
            GetOr(d.to.blackhole, raw.to.blackhole))))
  }

  predicate SameFamily(a: IPNet, b: IPNet) {
    To4(a.ip).Some? <==> To4(b.ip).Some?
  }

  lemma PlaceholderIsAllOnes(ip: IP)
    ensures IPEqual(ip, PLACEHOLDER.ip) <==> ip == seq(16, _ => 0xFF)
  {
    assert PLACEHOLDER.ip[..12][0] == 0xFF;
  }

  /** LRGConfiguration.UnmarshalYAML: decode, copy From into To, decode again, then check. */
  method Unmarshal(doc: Option<Doc>) returns (r: Result<LRG, ConfigError>)
    ensures doc.None? <==> r == Failure(Undecodable)
    ensures doc.Some? ==>
              (r == Failure(MissingPrefix) <==>
               doc.value.from.prefix.None? || doc.value.from.prefix.value.ip == seq(16, _ => 0xFF))
    ensures r.Success? ==> SameFamily(r.value.from.prefix, r.value.to.prefix)
    ensures r.Success? ==>
              && doc.value.from.prefix == Some(r.value.from.prefix)
              && r.value.from.table == GetOr(doc.value.from.table, 254)
              && r.value.from.protocol == doc.value.from.protocol
              && r.value.from.metric == doc.value.from.metric
    // What the "to" block leaves out is inherited: prefix and table from the "from" block as it
    // was written, the rest from the defaults.
    ensures r.Success? ==>
              && r.value.to.prefix == GetOr(doc.value.to.prefix, r.value.from.prefix)
              && r.value.to.table == GetOr(doc.value.to.table, r.value.from.table)
              && r.value.to.protocol == GetOr(doc.value.to.protocol, 254)
              && r.value.to.metric == GetOr(doc.value.to.metric, 0xFFFF_FFFF)
              && r.value.to.blackhole == GetOr(doc.value.to.blackhole, false)
    ensures r == Failure(IncompatibleFamilies) ==>
              && doc.value.to.prefix.Some?
              && !SameFamily(doc.value.from.prefix.value, doc.value.to.prefix.value)
  {
    var raw := LRG(LRGFrom(PLACEHOLDER, None, None, DEFAULT_TABLE),
                   LRGTo(NO_PREFIX, DEFAULT_TO_PROTOCOL, DEFAULT_TO_METRIC, 0, false));
    var first := Decode(doc, raw);
    if first.Failure? {
      return first;
    }
    raw := first.value;
    raw := raw.(to := raw.to.(prefix := raw.from.prefix, table := raw.from.table));
    var second := Decode(doc, raw);
    if second.Failure? {
      return second;
    }
    raw := second.value;
    PlaceholderIsAllOnes(raw.from.prefix.ip);
    if IPEqual(raw.from.prefix.ip, PLACEHOLDER.ip) {
      return Failure(MissingPrefix);
    } else if To4(raw.from.prefix.ip).None? && To4(raw.to.prefix.ip).Some? {
      return Failure(IncompatibleFamilies);
    } else if To4(raw.from.prefix.ip).Some? && To4(raw.to.prefix.ip).None? {
      return Failure(IncompatibleFamilies);
    }
    return Success(raw);
  }
}
