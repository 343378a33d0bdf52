/**
 * `buildSyntheticData`: the loops that create the users and the
 * transactions, feed every attribute through the sharing engine, add the
 * seed edge when sharing was requested but none happened, and finalise the
 * two edge maps.
 */
module Generator {
  import opened JsText
  import opened Density
  import opened EdgeAccumulator
  import opened SharingEngine

  datatype User = User(id: string, name: string, email: string, phone: string, address: string, paymentMethods: string)

  /** A transaction; the amount is kept in integer cents (see `AmountCents`). */
  datatype Transaction = Transaction(id: string, senderId: string, receiverId: string, amountCents: int, ip: string, deviceId: string)

  const UserPrefix := "u_"
  const TransactionPrefix := "t_"

  /** `${prefix}${i}`. */
  function EntityId(prefix: string, i: nat): (id: string) {
    prefix + NatToString(i)
  }

  function UserId(i: nat): (r: string) { EntityId(UserPrefix, i) }
  function TransactionId(i: nat): (r: string) { EntityId(TransactionPrefix, i) }

  /** The ids of the first `n` entities of a kind. */
  function Ids(prefix: string, n: nat): (r: set<string>) {
    set i | 0 <= i < n :: EntityId(prefix, i)
  }

  function UserIds(n: nat): (r: set<string>) { Ids(UserPrefix, n) }
  function TransactionIds(n: nat): (r: set<string>) { Ids(TransactionPrefix, n) }

  /** Different indices give different ids. */
  lemma EntityIdInjective(prefix: string, i: nat, j: nat)
    requires EntityId(prefix, i) == EntityId(prefix, j)
    ensures i == j
  {
    assert EntityId(prefix, i)[|prefix|..] == NatToString(i);
    assert EntityId(prefix, j)[|prefix|..] == NatToString(j);
    NatToStringInjective(i, j);
  }

  lemma EntityIdsDistinct(prefix: string, i: nat, j: nat)
    ensures i != j ==> EntityId(prefix, i) != EntityId(prefix, j)
  {
    if EntityId(prefix, i) == EntityId(prefix, j) {
      EntityIdInjective(prefix, i, j);
    }
  }

  /** The id of entity `n` is new among the ids of the first `n`. */
  lemma IdsNext(prefix: string, n: nat)
    ensures EntityId(prefix, n) !in Ids(prefix, n)
    ensures Ids(prefix, n + 1) == Ids(prefix, n) + {EntityId(prefix, n)}
  {
    if EntityId(prefix, n) in Ids(prefix, n) {
      var i :| 0 <= i < n && EntityId(prefix, i) == EntityId(prefix, n);
      EntityIdInjective(prefix, i, n);
    }
  }

  /** The reason tags of the two dimension families, and of the seed edge. */
  const UserTags: set<string> := {"email", "phone", "address", "payment_methods"}
  const TransactionTags: set<string> := {"ip", "deviceId"}
  const SeedTag := "seed"

  /** The draws one user consumes, one record per attribute dimension. */
  datatype UserDraws = UserDraws(email: ShareDraw, phone: ShareDraw, address: ShareDraw, payment: ShareDraw)

  predicate ValidUserDraws(d: UserDraws) {
    ValidDraw(d.email) && ValidDraw(d.phone) && ValidDraw(d.address) && ValidDraw(d.payment)
  }

  /** The draws one transaction consumes: sender, receiver, amount, and its two dimensions. */
  datatype TransactionDraws = TransactionDraws(sender: real, receiver: real, amount: real, ip: ShareDraw, device: ShareDraw)

  predicate ValidTransactionDraws(d: TransactionDraws) {
    IsRandom(d.sender) && IsRandom(d.receiver) && IsRandom(d.amount) && ValidDraw(d.ip) && ValidDraw(d.device)
  }

  const Payments: seq<string> := ["credit_card", "debit_card", "bank_transfer", "UPI"]

  /** `User${i}`: the digits after `User` read back as `i`. */
  function UserName(i: nat): (name: string) {
    "User" + NatToString(i)
  }

  lemma UserNameReadsBack(i: nat)
    ensures var name := UserName(i);
      |name| > 4 && name[..4] == "User" && IsDigits(name[4..]) && ParseDigits(name[4..]) == i
  {
    Framed("User", i, "");
    assert "User" + NatToString(i) + "" == UserName(i);
  }

  /** `user${i}@example.com`: the digits between `user` and `@example.com` read back as `i`. */
  function DefaultEmail(i: nat): (email: string) {
    "user" + NatToString(i) + "@example.com"
  }

  lemma DefaultEmailReadsBack(i: nat)
    ensures var email := DefaultEmail(i);
      && |email| > 16 && email[..4] == "user" && email[|email| - 12..] == "@example.com"
      && IsDigits(email[4..|email| - 12]) && ParseDigits(email[4..|email| - 12]) == i
  {
    Framed("user", i, "@example.com");
  }

  /**
   * `+1-555-${String(i).padStart(7, '0').slice(-7)}`: always fourteen
   * characters, the last seven the digits of `i` modulo 10^7.
   */
  function DefaultPhone(i: nat): (phone: string) {
    "+1-555-" + LastChars(PadStart(NatToString(i), 7, '0'), 7)
  }

  lemma DefaultPhoneDigits(i: nat)
    ensures var phone := DefaultPhone(i);
      && |phone| == 14 && phone[..7] == "+1-555-"
      && IsDigits(phone[7..]) && ParseDigits(phone[7..]) == i % 10000000
  {
    var d := LastChars(PadStart(NatToString(i), 7, '0'), 7);
    PaddedDigits(i);
    assert DefaultPhone(i) == "+1-555-" + d;
    assert DefaultPhone(i)[7..] == d;
  }

  /** The last seven characters of the zero-padded numeral are `i` modulo 10^7. */
  lemma PaddedDigits(i: nat)
    ensures var d := LastChars(PadStart(NatToString(i), 7, '0'), 7);
      |d| == 7 && IsDigits(d) && ParseDigits(d) == i % 10000000
  {
    var r := PadStart(NatToString(i), 7, '0');
    PaddedValue(i);
    LastCharsSuffix(r, 7);
    assert LastChars(r, 7) == r[|r| - 7..];
    SuffixDigits(r, 7);
    SevenDigits();
  }

  /** Padding with zeros on the left keeps the value. */
  lemma PaddedValue(i: nat)
    ensures var r := PadStart(NatToString(i), 7, '0');
      |r| >= 7 && IsDigits(r) && ParseDigits(r) == i
  {
    var s := NatToString(i);
    var r := PadStart(s, 7, '0');
    PadStartShape(s, 7, '0');
    var z := r[..|r| - |s|];
    assert r == z + s;
    LeadingZeros(z, s);
    ParseNatToString(i);
  }

  lemma SevenDigits()
    ensures Pow10(7) == 10000000
  {
  }

  /** `Address ${i}`: the digits after `Address ` read back as `i`. */
  function DefaultAddress(i: nat): (address: string) {
    "Address " + NatToString(i)
  }

  lemma DefaultAddressReadsBack(i: nat)
    ensures var address := DefaultAddress(i);
      |address| > 8 && address[..8] == "Address " && IsDigits(address[8..]) && ParseDigits(address[8..]) == i
  {
    Framed("Address ", i, "");
    assert "Address " + NatToString(i) + "" == DefaultAddress(i);
  }

  /** `payments[i % payments.length]`. */
  function DefaultPayment(i: nat): (payment: string)
    ensures payment in Payments
  {
    Payments[i % |Payments|]
  }

  /** The default payment methods go round the four in turn: consecutive users differ, and the cycle has length four. */
  lemma DefaultPaymentRotates(i: nat)
    ensures DefaultPayment(i + 1) != DefaultPayment(i)
    ensures DefaultPayment(i + |Payments|) == DefaultPayment(i)
  {
    assert (i + 1) % 4 == if i % 4 == 3 then 0 else i % 4 + 1;
  }

  /**
   * `10.${Math.floor(i / 10000)}.${Math.floor((i / 100) % 100)}.${i % 100}`
   * with the floors taken as integer divisions (see `FloorsAreIntegerDivisions`).
   */
  function DefaultIp(i: nat): (ip: string) {
    "10." + NatToString(i / 10000) + "." + NatToString((i / 100) % 100) + "." + NatToString(i % 100)
  }

  /** Different transactions get different default ips: the three fields give back the index. */
  lemma DefaultIpInjective(i: nat, j: nat)
    requires DefaultIp(i) == DefaultIp(j)
    ensures i == j
  {
    var a, b, c := NatToString(i / 10000), NatToString((i / 100) % 100), NatToString(i % 100);
    var a', b', c' := NatToString(j / 10000), NatToString((j / 100) % 100), NatToString(j % 100);
    IpTail(i);
    IpTail(j);
    DotSplit(a, b + "." + c, a', b' + "." + c');
    DotSplit(b, c, b', c');
    NatToStringInjective(i / 10000, j / 10000);
    NatToStringInjective((i / 100) % 100, (j / 100) % 100);
    NatToStringInjective(i % 100, j % 100);
    IpFields(i);
    IpFields(j);
  }

  /** After `10.` come the three fields, each followed by a dot but the last. */
  lemma IpTail(i: nat)
    ensures DefaultIp(i)[3..]
      == NatToString(i / 10000) + "." + (NatToString((i / 100) % 100) + "." + NatToString(i % 100))
  {
    var a, b, c := NatToString(i / 10000), NatToString((i / 100) % 100), NatToString(i % 100);
    assert DefaultIp(i) == "10." + (a + "." + (b + "." + c));
  }

  /** A numeral ends at the first dot. */
  lemma DotSplit(a: string, b: string, c: string, d: string)
    requires IsDigits(a) && IsDigits(c) && a + "." + b == c + "." + d
    ensures a == c && b == d
  {
    var s := a + "." + b;
    assert forall k :: 0 <= k < |a| ==> s[k] == a[k] != '.';
    assert forall k :: 0 <= k < |c| ==> s[k] == c[k] != '.';
    assert s[|a|] == '.' && s[|c|] == '.';
    assert a == s[..|a|] == c;
    assert b == s[|a| + 1..] == d;
  }

  /** The three ip fields make up the index: `i == 10000·(i / 10000) + 100·((i / 100) % 100) + i % 100`. */
  lemma IpFields(i: nat)
    ensures i == 10000 * (i / 10000) + 100 * ((i / 100) % 100) + i % 100
  {
    var h := i / 100;
    assert i == 100 * h + i % 100;
    assert h == 100 * (h / 100) + h % 100;
    ModOfDecomposition(i, 10000, h / 100, 100 * (h % 100) + i % 100);
  }

  /** `x % m` of JavaScript for non-negative `x` and positive `m`. */
  function JsRemainder(x: real, m: real): (r: real)
    requires x >= 0.0 && m > 0.0
  {
    x - m * (x / m).Floor as real
  }

  /** `Math.floor(i / d)` on floating-point `i / d` is the integer division. */
  lemma RealFloorDivision(i: nat, d: nat)
    requires d > 0
    ensures (i as real / d as real).Floor == i / d
  {
    var q, r := i / d, i % d;
    var D := d as real;
    assert i as real == q as real * D + r as real;
    assert i as real / D == q as real + r as real / D;
    DivideBelow(0.0, r as real / D, D);
    DivideAbove(r as real / D, D, D);
  }

  /**
   * The floating-point floors of the default ip and device id are the
   * integer divisions the model uses: `Math.floor(i / 10000)`,
   * `Math.floor((i / 100) % 100)` and `Math.floor(i / 10)`.
   */
  lemma FloorsAreIntegerDivisions(i: nat)
    ensures (i as real / 10000.0).Floor == i / 10000
    ensures JsRemainder(i as real / 100.0, 100.0).Floor == (i / 100) % 100
    ensures (i as real / 10.0).Floor == i / 10
  {
    RealFloorDivision(i, 10000);
    RealFloorDivision(i, 10);
    var x := i as real / 100.0;
    assert x / 100.0 == i as real / 10000.0;
    var r := i % 10000;
    assert JsRemainder(x, 100.0) == r as real / 100.0 by {
      assert i == 10000 * (i / 10000) + r;
    }
    RealFloorDivision(r, 100);
    IpFields(i);
    ModOfDecomposition(r, 100, (i / 100) % 100, i % 100);
  }

  /** `dev_${Math.floor(i / 10)}`: ten consecutive transactions share the digits `i / 10`. */
  function DefaultDeviceId(i: nat): (device: string) {
    "dev_" + NatToString(i / 10)
  }

  lemma DefaultDeviceIdReadsBack(i: nat)
    ensures var device := DefaultDeviceId(i);
      |device| > 4 && device[..4] == "dev_" && IsDigits(device[4..]) && ParseDigits(device[4..]) == i / 10
  {
    Framed("dev_", i / 10, "");
    assert "dev_" + NatToString(i / 10) + "" == DefaultDeviceId(i);
  }

  /** `Math.floor(Math.random() * usersCount)`. */
  function SenderIndex(usersCount: nat, r: real): (s: nat)
    requires IsRandom(r)
    ensures usersCount > 0 ==> s < usersCount
    ensures usersCount == 0 ==> s == 0
  {
    if usersCount == 0 then 0 else Pick(usersCount, r)
  }

  /** The receiver draw, moved on by one (wrapping around) when it hits the sender. */
  function ReceiverIndex(usersCount: nat, sender: nat, r: real): (j: nat)
    requires 0 < usersCount && sender < usersCount && IsRandom(r)
    ensures j < usersCount
    ensures usersCount >= 2 ==> j != sender
  {
    var drawn := Pick(usersCount, r);
    if drawn == sender then (drawn + 1) % usersCount else drawn
  }

  /**
   * `Math.round(Math.random() * 100000) / 100` in integer cents:
   * `Math.round(x)` is `Math.floor(x + 0.5)`.
   */
  function AmountCents(r: real): (c: int)
    requires IsRandom(r)
    ensures 0 <= c <= 100000
  {
    (r * 100000.0 + 0.5).Floor
  }

  /**
   * Every cent value in [0, 100000] is drawn for some `Math.random()`
   * result, the top one included: the amount can be exactly 1000.00.
   */
  lemma AmountCentsOnto(c: int)
    requires 0 <= c <= 100000
    ensures exists r :: IsRandom(r) && AmountCents(r) == c
  {
    if c < 100000 {
      var r := c as real / 100000.0;
      assert r * 100000.0 + 0.5 == c as real + 0.5;
      assert IsRandom(r) && AmountCents(r) == c;
    } else {
      assert IsRandom(0.999995) && AmountCents(0.999995) == c;
    }
  }

  /**
   * The transaction `t_i` with its drawn parties and amount and the `ip` and
   * `deviceId` the engine assigned. With no users at all, `(0 + 1) % 0` is
   * NaN and the receiver id is `u_NaN`.
   */
  function NewTransaction(i: nat, usersCount: nat, d: TransactionDraws, ip: string, deviceId: string): (t: Transaction)
    requires ValidTransactionDraws(d)
    ensures t.id == TransactionId(i) && t.ip == ip && t.deviceId == deviceId
    ensures 0 <= t.amountCents <= 100000
    ensures usersCount >= 1 ==> t.senderId in UserIds(usersCount) && t.receiverId in UserIds(usersCount)
    ensures usersCount >= 2 ==> t.senderId != t.receiverId
  {
    var sender := SenderIndex(usersCount, d.sender);
    Transaction(TransactionId(i), UserId(sender), ReceiverId(usersCount, sender, d.receiver),
                AmountCents(d.amount), ip, deviceId)
  }

  /** `u_${receiverIndex}`; with no users `(0 + 1) % 0` is NaN. */
  function ReceiverId(usersCount: nat, sender: nat, r: real): (id: string)
    requires IsRandom(r) && (usersCount > 0 ==> sender < usersCount)
    ensures usersCount == 0 ==> id == UserPrefix + "NaN"
    ensures usersCount > 0 ==> id in UserIds(usersCount)
    ensures usersCount >= 2 ==> id != UserId(sender)
  {
    if usersCount == 0 then UserPrefix + "NaN"
    else
      var receiver := ReceiverIndex(usersCount, sender, r);
      EntityIdsDistinct(UserPrefix, sender, receiver);
      UserId(receiver)
  }

  /** A group list in its invariant state, every member among `known`. */
  ghost predicate Ready(g: GroupList, known: set<string>)
    reads g
  {
    GroupsValid(g.groups) && MembersIn(g.groups, known)
  }

  /** An edge map well formed, its edges among `ids` and their reasons among `tags`. */
  ghost predicate EdgesWithin(m: EdgeMap, ids: set<string>, tags: set<string>)
    reads m
  {
    WellFormed(m.Table()) && EndpointsIn(m.Table(), ids) && ReasonsWithin(m.Table(), tags)
  }

  /** The four attribute group lists of the user loop: distinct objects, each ready for `known`. */
  ghost predicate UserGroupsReady(emails: GroupList, phones: GroupList, addresses: GroupList, payments: GroupList,
                                  known: set<string>)
    reads emails, phones, addresses, payments
  {
    && emails != phones && emails != addresses && emails != payments
    && phones != addresses && phones != payments && addresses != payments
    && Ready(emails, known) && Ready(phones, known) && Ready(addresses, known) && Ready(payments, known)
  }

  /** The defaults `f(0)`, …, `f(n - 1)` of the first `n` entities (see `DefaultsHave` and `DefaultsOnly`). */
  function Defaults(f: nat -> string, n: nat): (s: set<string>) {
    if n == 0 then {} else Defaults(f, n - 1) + {f(n - 1)}
  }

  /** The default of every entity `j < n` is among the first `n` defaults. */
  lemma DefaultsHave(f: nat -> string, n: nat, j: nat)
    requires j < n
    ensures f(j) in Defaults(f, n)
  {
    assert Defaults(f, j + 1) == Defaults(f, j) + {f(j)};
    DefaultsGrow(f, j + 1, n);
  }

  /** The defaults of the first `m` are among those of the first `n >= m`. */
  lemma {:induction false} DefaultsGrow(f: nat -> string, m: nat, n: nat)
    requires m <= n
    ensures Defaults(f, m) <= Defaults(f, n)
    decreases n - m
  {
    if m < n {
      DefaultsGrow(f, m + 1, n);
      assert Defaults(f, m + 1) == Defaults(f, m) + {f(m)};
    }
  }

  /** Nothing else is: a value among the first `n` defaults is the default of some entity `j < n`. */
  lemma {:induction false} DefaultsOnly(f: nat -> string, n: nat, v: string)
    requires v in Defaults(f, n)
    ensures exists j :: 0 <= j < n && f(j) == v
  {
    if v in Defaults(f, n - 1) {
      DefaultsOnly(f, n - 1, v);
      var j :| 0 <= j < n - 1 && f(j) == v;
      assert 0 <= j < n && f(j) == v;
    } else {
      assert 0 <= n - 1 < n && f(n - 1) == v;
    }
  }

  /** Every value held in the list `g` is the default of one of the first `n` entities. */
  ghost predicate ValuesFrom(g: GroupList, f: nat -> string, n: nat)
    reads g
  {
    forall k :: 0 <= k < |g.groups| ==> g.groups[k].value in Defaults(f, n)
  }

  /**
   * `assignValue` for entity `n` either hands out a value the list already
   * holds or founds a group with the default of `n`, so the defaults of the
   * first `n` become the defaults of the first `n + 1`.
   */
  lemma DefaultsStep(before: set<string>, after: set<string>, value: string, f: nat -> string, n: nat)
    requires before <= Defaults(f, n)
    requires value in before + {f(n)} && after <= before + {f(n)}
    ensures value in Defaults(f, n + 1) && after <= Defaults(f, n + 1)
  {
    assert Defaults(f, n + 1) == Defaults(f, n) + {f(n)};
  }

  /**
   * One `assignValue` call of the two loops, for entity `i` with id `id`
   * and default `f(i)`: the list stays ready and holds only
   * defaults of the first `i + 1` entities, the value handed out is one of
   * them, and a zero probability leaves the edges alone.
   */
  method AssignDefault(groups: GroupList, edges: EdgeMap, i: nat, id: string, f: nat -> string, reason: string,
                       probability: real, draw: ShareDraw, ghost known: set<string>, ghost tags: set<string>,
                       ghost views: Views)
    returns (value: string)
    requires ValidDraw(draw) && id != "" && reason in tags && reason != ""
    requires Ready(groups, known) && ValuesFrom(groups, f, i)
    requires EdgesWithin(edges, known + {id}, tags)
    requires reason in views && id !in views[reason]
    requires GroupsAgree(groups.groups, views[reason]) && EdgesAgree(edges.Table(), views)
    modifies groups, edges
    ensures Ready(groups, known + {id}) && ValuesFrom(groups, f, i + 1) && value in Defaults(f, i + 1)
    ensures EdgesWithin(edges, known + {id}, tags)
    ensures GroupsAgree(groups.groups, views[reason][id := value])
    ensures EdgesAgree(edges.Table(), Learn(views, reason, id, value))
    ensures Assignment(groups.groups, edges.Table(), value)
              == Assign(old(groups.groups), old(edges.Table()), id, f(i), reason, probability, draw)
    ensures probability <= 0.0 ==> edges.Table() == old(edges.Table())
  {
    ghost var before, gs, t := Values(groups.groups), groups.groups, edges.Table();
    AssignAgrees(gs, t, id, f(i), reason, probability, draw, views);
    value := AssignValue(groups, edges, id, f(i), reason, probability, draw, known, tags);
    DefaultsStep(before, Values(groups.groups), value, f, i);
    assert forall k :: 0 <= k < |groups.groups| ==> groups.groups[k].value in Values(groups.groups);
  }

  /**
   * Two `assignValue` calls for entity `i`, on two different lists and for
   * two different reasons, one after the other as the loops make them.
   */
  method AssignPair(g1: GroupList, g2: GroupList, edges: EdgeMap, i: nat, id: string,
                    f1: nat -> string, r1: string, f2: nat -> string, r2: string, probability: real,
                    d1: ShareDraw, d2: ShareDraw, ghost known: set<string>, ghost tags: set<string>, ghost views: Views)
    returns (x1: string, x2: string)
    requires g1 != g2 && r1 != r2 && ValidDraw(d1) && ValidDraw(d2) && id != ""
    requires r1 in tags && r1 != "" && r2 in tags && r2 != ""
    requires Ready(g1, known) && ValuesFrom(g1, f1, i) && Ready(g2, known) && ValuesFrom(g2, f2, i)
    requires EdgesWithin(edges, known + {id}, tags)
    requires r1 in views && id !in views[r1] && r2 in views && id !in views[r2]
    requires GroupsAgree(g1.groups, views[r1]) && GroupsAgree(g2.groups, views[r2]) && EdgesAgree(edges.Table(), views)
    modifies g1, g2, edges
    ensures Ready(g1, known + {id}) && ValuesFrom(g1, f1, i + 1) && x1 in Defaults(f1, i + 1)
    ensures Ready(g2, known + {id}) && ValuesFrom(g2, f2, i + 1) && x2 in Defaults(f2, i + 1)
    ensures EdgesWithin(edges, known + {id}, tags)
    ensures GroupsAgree(g1.groups, views[r1][id := x1]) && GroupsAgree(g2.groups, views[r2][id := x2])
    ensures EdgesAgree(edges.Table(), Learn(Learn(views, r1, id, x1), r2, id, x2))
    ensures var a1 := Assign(old(g1.groups), old(edges.Table()), id, f1(i), r1, probability, d1);
      var a2 := Assign(old(g2.groups), a1.table, id, f2(i), r2, probability, d2);
      && g1.groups == a1.groups && x1 == a1.value
      && g2.groups == a2.groups && x2 == a2.value && edges.Table() == a2.table
    ensures probability <= 0.0 ==> edges.Table() == old(edges.Table())
  {
    x1 := AssignDefault(g1, edges, i, id, f1, r1, probability, d1, known, tags, views);
    x2 := AssignDefault(g2, edges, i, id, f2, r2, probability, d2, known, tags, Learn(views, r1, id, x1));
  }

  /** The four user lists hold only defaults of the first `n` users. */
  ghost predicate UserValuesFrom(emails: GroupList, phones: GroupList, addresses: GroupList, payments: GroupList, n: nat)
    reads emails, phones, addresses, payments
  {
    && ValuesFrom(emails, DefaultEmail, n) && ValuesFrom(phones, DefaultPhone, n)
    && ValuesFrom(addresses, DefaultAddress, n) && ValuesFrom(payments, DefaultPayment, n)
  }

  /**
   * `u` is user `u_j`, named `User{j}`, and each of its attributes is the
   * default of `u_j` itself or of an earlier user whose group it joined.
   */
  predicate UserAt(u: User, j: nat) {
    && u.id == UserId(j) && u.name == UserName(j)
    && u.email in Defaults(DefaultEmail, j + 1) && u.phone in Defaults(DefaultPhone, j + 1)
    && u.address in Defaults(DefaultAddress, j + 1) && u.paymentMethods in Defaults(DefaultPayment, j + 1)
  }

  /**
   * `P(xs[j], j)` for every position `j`, written as a recursion on the
   * last element: the form in which the two loops carry what they have
   * pushed so far.
   */
  predicate Built<T>(xs: seq<T>, P: (T, nat) -> bool) {
    xs == [] || (Built(xs[..|xs| - 1], P) && P(xs[|xs| - 1], |xs| - 1))
  }

  lemma BuiltSnoc<T>(xs: seq<T>, x: T, P: (T, nat) -> bool)
    requires Built(xs, P) && P(x, |xs|)
    ensures Built(xs + [x], P)
  {
    assert (xs + [x])[..|xs|] == xs;
  }

  lemma {:induction false} BuiltAll<T>(xs: seq<T>, P: (T, nat) -> bool)
    requires Built(xs, P)
    ensures forall j :: 0 <= j < |xs| ==> P(xs[j], j)
  {
    if xs != [] {
      var init := xs[..|xs| - 1];
      BuiltAll(init, P);
      assert forall j :: 0 <= j < |init| ==> xs[j] == init[j];
    }
  }

  /** The four user reasons are different strings, so their views never clash. */
  lemma UserTagsDistinct()
    ensures "email" != "phone" && "email" != "address" && "email" != "payment_methods"
    ensures "phone" != "address" && "phone" != "payment_methods" && "address" != "payment_methods"
  {
    assert "email"[0] != "phone"[0] && "address"[0] != "payment_methods"[0];
    assert |"address"| != |"email"| && |"payment_methods"| != |"email"| && |"payment_methods"| != |"phone"|;
    assert |"address"| != |"phone"|;
  }

  /** `views` after user `u` has received its four attributes. */
  function WithUser(views: Views, u: User): (r: Views)
    requires "email" in views && "phone" in views && "address" in views && "payment_methods" in views
  {
    var v1 := Learn(views, "email", u.id, u.email);
    var v2 := Learn(v1, "phone", u.id, u.phone);
    var v3 := Learn(v2, "address", u.id, u.address);
    Learn(v3, "payment_methods", u.id, u.paymentMethods)
  }

  /** Each of the four views of `WithUser` gains `u` with its own attribute. */
  lemma WithUserAt(views: Views, u: User)
    requires "email" in views && "phone" in views && "address" in views && "payment_methods" in views
    ensures var views' := WithUser(views, u);
      && "email" in views' && "phone" in views' && "address" in views' && "payment_methods" in views'
      && views'["email"] == views["email"][u.id := u.email]
      && views'["phone"] == views["phone"][u.id := u.phone]
      && views'["address"] == views["address"][u.id := u.address]
      && views'["payment_methods"] == views["payment_methods"][u.id := u.paymentMethods]
  {
    UserTagsDistinct();
  }

  /** `views` records the four attributes of `u`. */
  predicate UserViewed(views: Views, u: User) {
    && "email" in views && u.id in views["email"] && views["email"][u.id] == u.email
    && "phone" in views && u.id in views["phone"] && views["phone"][u.id] == u.phone
    && "address" in views && u.id in views["address"] && views["address"][u.id] == u.address
    && "payment_methods" in views && u.id in views["payment_methods"] && views["payment_methods"][u.id] == u.paymentMethods
  }

  /**
   * `views` holds, for each user reason, the attribute of every user pushed
   * so far, and knows no id outside the first `n` users.
   */
  ghost predicate UsersViewed(views: Views, users: seq<User>, n: nat) {
    && "email" in views && "phone" in views && "address" in views && "payment_methods" in views
    && views["email"].Keys <= UserIds(n) && views["phone"].Keys <= UserIds(n)
    && views["address"].Keys <= UserIds(n) && views["payment_methods"].Keys <= UserIds(n)
    && (forall j :: 0 <= j < |users| ==> UserViewed(views, users[j]))
  }

  lemma UsersViewedSnoc(views: Views, users: seq<User>, u: User, n: nat)
    requires UsersViewed(views, users, n) && u.id == UserId(n)
    ensures UsersViewed(WithUser(views, u), users + [u], n + 1)
  {
    IdsNext(UserPrefix, n);
    WithUserAt(views, u);
    var views', users' := WithUser(views, u), users + [u];
    forall j | 0 <= j < |users'|
      ensures UserViewed(views', users'[j])
    {
      if j < |users| {
        assert users'[j] == users[j] && UserViewed(views, users[j]);
        assert users[j].id in views["email"] && users[j].id != u.id;
      }
    }
  }

  /** Two users share every attribute that one of the reasons names. */
  predicate UsersShare(reasons: seq<string>, u: User, v: User) {
    && ("email" in reasons ==> u.email == v.email)
    && ("phone" in reasons ==> u.phone == v.phone)
    && ("address" in reasons ==> u.address == v.address)
    && ("payment_methods" in reasons ==> u.paymentMethods == v.paymentMethods)
  }

  /**
   * What a shared edge means: a record that joins users `a` and `b` joins
   * two users with the same value for every attribute its reasons name.
   */
  ghost predicate UserEdgesShare(edges: seq<EdgeRecord>, users: seq<User>) {
    forall e, a, b ::
      && 0 <= e < |edges| && 0 <= a < |users| && 0 <= b < |users|
      && edges[e].source == users[a].id && edges[e].target == users[b].id
      ==> UsersShare(edges[e].reasons, users[a], users[b])
  }

  /** Meaningful edges, finalised, are records that join users who share the attribute. */
  lemma UserEdgesFromViews(t: EdgeTable, views: Views, users: seq<User>, n: nat)
    requires WellFormed(t) && ReasonsWithin(t, UserTags) && EdgesAgree(t, views) && UsersViewed(views, users, n)
    ensures UserEdgesShare(FinalizeEdges(t), users)
  {
    var records := FinalizeEdges(t);
    forall e, a, b |
      && 0 <= e < |records| && 0 <= a < |users| && 0 <= b < |users|
      && records[e].source == users[a].id && records[e].target == users[b].id
      ensures UsersShare(records[e].reasons, users[a], users[b])
    {
      var k := t.order[e];
      assert k in t.reasons && records[e].reasons == t.reasons[k];
      assert UserViewed(views, users[a]) && UserViewed(views, users[b]);
    }
  }

  /**
   * The user loop after `n` users: the users pushed so far, each as
   * `UserAt` says; the four lists distinct, ready and holding only defaults
   * of the first `n` users; the edges among those users; and, through
   * `views`, every group and every edge agreeing with the users'
   * attributes.
   */
  ghost predicate UserLoop(users: seq<User>, views: Views, emails: GroupList, phones: GroupList, addresses: GroupList,
                           payments: GroupList, edges: EdgeMap, n: nat)
    reads emails, phones, addresses, payments, edges
  {
    && |users| == n && Built(users, UserAt)
    && UserGroupsReady(emails, phones, addresses, payments, UserIds(n))
    && UserValuesFrom(emails, phones, addresses, payments, n)
    && EdgesWithin(edges, UserIds(n), UserTags)
    && UsersViewed(views, users, n)
    && GroupsAgree(emails.groups, views["email"]) && GroupsAgree(phones.groups, views["phone"])
    && GroupsAgree(addresses.groups, views["address"]) && GroupsAgree(payments.groups, views["payment_methods"])
    && EdgesAgree(edges.Table(), views)
  }

  /**
   * The four `assignSharedValue` calls for user `i`, in the order of the
   * loop body: email, phone, address, payment method.
   */
  method AssignUserAttributes(emails: GroupList, phones: GroupList, addresses: GroupList, payments: GroupList,
                              edges: EdgeMap, i: nat, id: string, probability: real, d: UserDraws,
                              ghost known: set<string>, ghost views: Views)
    returns (email: string, phone: string, address: string, payment: string)
    requires ValidUserDraws(d) && id != ""
    requires UserGroupsReady(emails, phones, addresses, payments, known)
    requires UserValuesFrom(emails, phones, addresses, payments, i)
    requires EdgesWithin(edges, known + {id}, UserTags)
    requires "email" in views && "phone" in views && "address" in views && "payment_methods" in views
    requires id !in views["email"] && id !in views["phone"] && id !in views["address"] && id !in views["payment_methods"]
    requires GroupsAgree(emails.groups, views["email"]) && GroupsAgree(phones.groups, views["phone"])
    requires GroupsAgree(addresses.groups, views["address"]) && GroupsAgree(payments.groups, views["payment_methods"])
    requires EdgesAgree(edges.Table(), views)
    modifies emails, phones, addresses, payments, edges
    ensures UserGroupsReady(emails, phones, addresses, payments, known + {id})
    ensures UserValuesFrom(emails, phones, addresses, payments, i + 1)
    ensures email in Defaults(DefaultEmail, i + 1) && phone in Defaults(DefaultPhone, i + 1)
    ensures address in Defaults(DefaultAddress, i + 1) && payment in Defaults(DefaultPayment, i + 1)
    ensures EdgesWithin(edges, known + {id}, UserTags)
    ensures GroupsAgree(emails.groups, views["email"][id := email]) && GroupsAgree(phones.groups, views["phone"][id := phone])
    ensures GroupsAgree(addresses.groups, views["address"][id := address])
    ensures GroupsAgree(payments.groups, views["payment_methods"][id := payment])
    ensures EdgesAgree(edges.Table(), WithUser(views, User(id, UserName(i), email, phone, address, payment)))
    ensures var a1 := Assign(old(emails.groups), old(edges.Table()), id, DefaultEmail(i), "email", probability, d.email);
      var a2 := Assign(old(phones.groups), a1.table, id, DefaultPhone(i), "phone", probability, d.phone);
      var a3 := Assign(old(addresses.groups), a2.table, id, DefaultAddress(i), "address", probability, d.address);
      var a4 := Assign(old(payments.groups), a3.table, id, DefaultPayment(i), "payment_methods", probability, d.payment);
      && emails.groups == a1.groups && email == a1.value && phones.groups == a2.groups && phone == a2.value
      && addresses.groups == a3.groups && address == a3.value && payments.groups == a4.groups && payment == a4.value
      && edges.Table() == a4.table
    ensures probability <= 0.0 ==> edges.Table() == old(edges.Table())
  {
    UserTagsDistinct();
    email, phone := AssignPair(emails, phones, edges, i, id, DefaultEmail, "email", DefaultPhone, "phone",
                               probability, d.email, d.phone, known, UserTags, views);
    ghost var v2 := Learn(Learn(views, "email", id, email), "phone", id, phone);
    address, payment := AssignPair(addresses, payments, edges, i, id, DefaultAddress, "address",
                                   DefaultPayment, "payment_methods", probability, d.address, d.payment,
                                   known, UserTags, v2);
  }

  /** The user loop advances by one user once its four lists and the edges have taken it in. */
  lemma UserLoopStep(users: seq<User>, views: Views, u: User, emails: GroupList, phones: GroupList,
                     addresses: GroupList, payments: GroupList, edges: EdgeMap, n: nat)
    requires |users| == n && Built(users, UserAt) && UserAt(u, n) && UsersViewed(views, users, n)
    requires UserGroupsReady(emails, phones, addresses, payments, UserIds(n + 1))
    requires UserValuesFrom(emails, phones, addresses, payments, n + 1)
    requires EdgesWithin(edges, UserIds(n + 1), UserTags)
    requires GroupsAgree(emails.groups, views["email"][u.id := u.email])
    requires GroupsAgree(phones.groups, views["phone"][u.id := u.phone])
    requires GroupsAgree(addresses.groups, views["address"][u.id := u.address])
    requires GroupsAgree(payments.groups, views["payment_methods"][u.id := u.paymentMethods])
    requires EdgesAgree(edges.Table(), WithUser(views, u))
    ensures UserLoop(users + [u], WithUser(views, u), emails, phones, addresses, payments, edges, n + 1)
  {
    BuiltSnoc(users, u, UserAt);
    UsersViewedSnoc(views, users, u, n);
    WithUserAt(views, u);
  }

  /** The body of the user loop for index `i`: `users.push(...)` of user `u_i`. */
  method NewUser(i: nat, probability: real, d: UserDraws, ghost users: seq<User>, ghost views: Views,
                 emails: GroupList, phones: GroupList, addresses: GroupList, payments: GroupList, edges: EdgeMap)
    returns (u: User)
    requires ValidUserDraws(d)
    requires UserLoop(users, views, emails, phones, addresses, payments, edges, i)
    modifies emails, phones, addresses, payments, edges
    ensures UserLoop(users + [u], WithUser(views, u), emails, phones, addresses, payments, edges, i + 1)
    ensures UserAt(u, i)
    ensures probability <= 0.0 ==> edges.Table() == old(edges.Table())
  {
    var id := UserId(i);
    IdsNext(UserPrefix, i);
    ghost var known, next := UserIds(i), UserIds(i + 1);
    assert next == known + {id};
    EndpointsWiden(edges.Table(), known, next);
    var email, phone, address, payment :=
      AssignUserAttributes(emails, phones, addresses, payments, edges, i, id, probability, d, known, views);
    u := User(id, UserName(i), email, phone, address, payment);
    UserLoopStep(users, views, u, emails, phones, addresses, payments, edges, i);
  }

  /** The user loop: `usersCount` users, each attribute through its own group list. */
  method BuildUsers(usersCount: nat, probability: real, draws: nat -> UserDraws)
    returns (users: seq<User>, edges: EdgeMap)
    requires forall i :: ValidUserDraws(draws(i))
    ensures fresh(edges)
    ensures |users| == usersCount
    ensures forall i :: 0 <= i < usersCount ==> UserAt(users[i], i)
    ensures EdgesWithin(edges, UserIds(usersCount), UserTags)
    ensures UserEdgesShare(FinalizeEdges(edges.Table()), users)
    ensures probability <= 0.0 ==> edges.Table() == EmptyTable
  {
    edges := new EdgeMap();
    var emails := new GroupList();
    var phones := new GroupList();
    var addresses := new GroupList();
    var payments := new GroupList();
    users := [];
    ghost var views: Views := map["email" := map[], "phone" := map[], "address" := map[], "payment_methods" := map[]];
    var i := 0;
    while i < usersCount
      invariant i <= usersCount
      invariant UserLoop(users, views, emails, phones, addresses, payments, edges, i)
      invariant probability <= 0.0 ==> edges.Table() == EmptyTable
    {
      var u := NewUser(i, probability, draws(i), users, views, emails, phones, addresses, payments, edges);
      users, views := users + [u], WithUser(views, u);
      i := i + 1;
    }
    BuiltAll(users, UserAt);
    UserEdgesFromViews(edges.Table(), views, users, usersCount);
  }

  /**
   * `t` is the transaction of index `i` for the given draws, its `ip` and
   * `deviceId` each the default of `t_i` itself or of an earlier transaction
   * whose group it joined.
   */
  predicate IsTransaction(t: Transaction, i: nat, usersCount: nat, d: TransactionDraws) {
    && ValidTransactionDraws(d) && t == NewTransaction(i, usersCount, d, t.ip, t.deviceId)
    && t.ip in Defaults(DefaultIp, i + 1) && t.deviceId in Defaults(DefaultDeviceId, i + 1)
  }

  /** `IsTransaction` for every index, as the predicate `Built` takes. */
  function TransactionAt(usersCount: nat, draws: nat -> TransactionDraws): (P: (Transaction, nat) -> bool) {
    (t: Transaction, j: nat) => IsTransaction(t, j, usersCount, draws(j))
  }

  /** `views` after transaction `t` has received its ip and device id. */
  function WithTransaction(views: Views, t: Transaction): (r: Views)
    requires "ip" in views && "deviceId" in views
  {
    Learn(Learn(views, "ip", t.id, t.ip), "deviceId", t.id, t.deviceId)
  }

  /** `views` records the ip and the device id of `t`. */
  predicate TransactionViewed(views: Views, t: Transaction) {
    && "ip" in views && t.id in views["ip"] && views["ip"][t.id] == t.ip
    && "deviceId" in views && t.id in views["deviceId"] && views["deviceId"][t.id] == t.deviceId
  }

  /**
   * `views` holds, for both transaction reasons, the attribute of every
   * transaction pushed so far, and knows no id outside the first `n`.
   */
  ghost predicate TransactionsViewed(views: Views, transactions: seq<Transaction>, n: nat) {
    && "ip" in views && "deviceId" in views
    && views["ip"].Keys <= TransactionIds(n) && views["deviceId"].Keys <= TransactionIds(n)
    && (forall j :: 0 <= j < |transactions| ==> TransactionViewed(views, transactions[j]))
  }

  lemma TransactionsViewedSnoc(views: Views, transactions: seq<Transaction>, t: Transaction, n: nat)
    requires TransactionsViewed(views, transactions, n) && t.id == TransactionId(n)
    ensures TransactionsViewed(WithTransaction(views, t), transactions + [t], n + 1)
  {
    IdsNext(TransactionPrefix, n);
    var views', transactions' := WithTransaction(views, t), transactions + [t];
    assert "ip" != "deviceId" by {
      assert |"ip"| != |"deviceId"|;
    }
    assert views'["ip"] == views["ip"][t.id := t.ip];
    assert views'["deviceId"] == views["deviceId"][t.id := t.deviceId];
    forall j | 0 <= j < |transactions'|
      ensures TransactionViewed(views', transactions'[j])
    {
      if j < |transactions| {
        assert transactions'[j] == transactions[j] && TransactionViewed(views, transactions[j]);
        assert transactions[j].id in views["ip"] && transactions[j].id != t.id;
      }
    }
  }

  /** Two transactions share every attribute that one of the reasons names. */
  predicate TransactionsShare(reasons: seq<string>, t: Transaction, t': Transaction) {
    && ("ip" in reasons ==> t.ip == t'.ip)
    && ("deviceId" in reasons ==> t.deviceId == t'.deviceId)
  }

  /**
   * What a transaction edge means: a record that joins transactions `a`
   * and `b` joins two transactions with the same ip when it carries `ip`,
   * and with the same device id when it carries `deviceId`.
   */
  ghost predicate TransactionEdgesShare(edges: seq<EdgeRecord>, transactions: seq<Transaction>) {
    forall e, a, b ::
      && 0 <= e < |edges| && 0 <= a < |transactions| && 0 <= b < |transactions|
      && edges[e].source == transactions[a].id && edges[e].target == transactions[b].id
      ==> TransactionsShare(edges[e].reasons, transactions[a], transactions[b])
  }

  /** Meaningful edges, finalised, are records that join transactions sharing the attribute. */
  lemma TransactionEdgesFromViews(t: EdgeTable, views: Views, transactions: seq<Transaction>, n: nat)
    requires WellFormed(t) && ReasonsWithin(t, TransactionTags) && EdgesAgree(t, views)
    requires TransactionsViewed(views, transactions, n)
    ensures TransactionEdgesShare(FinalizeEdges(t), transactions)
  {
    var records := FinalizeEdges(t);
    forall e, a, b |
      && 0 <= e < |records| && 0 <= a < |transactions| && 0 <= b < |transactions|
      && records[e].source == transactions[a].id && records[e].target == transactions[b].id
      ensures TransactionsShare(records[e].reasons, transactions[a], transactions[b])
    {
      var k := t.order[e];
      assert k in t.reasons && records[e].reasons == t.reasons[k];
      assert TransactionViewed(views, transactions[a]) && TransactionViewed(views, transactions[b]);
    }
  }

  /**
   * The transaction loop after `n` transactions: those pushed so far, each
   * as `IsTransaction` says; the two lists distinct, ready and holding only
   * defaults of the first `n` transactions; the edges among them; and,
   * through `views`, every group and every edge agreeing with the
   * transactions' attributes.
   */
  ghost predicate TransactionLoop(transactions: seq<Transaction>, views: Views, usersCount: nat,
                                  draws: nat -> TransactionDraws, ips: GroupList, devices: GroupList, edges: EdgeMap,
                                  n: nat)
    reads ips, devices, edges
  {
    && |transactions| == n && Built(transactions, TransactionAt(usersCount, draws))
    && ips != devices && Ready(ips, TransactionIds(n)) && Ready(devices, TransactionIds(n))
    && ValuesFrom(ips, DefaultIp, n) && ValuesFrom(devices, DefaultDeviceId, n)
    && EdgesWithin(edges, TransactionIds(n), TransactionTags)
    && TransactionsViewed(views, transactions, n)
    && GroupsAgree(ips.groups, views["ip"]) && GroupsAgree(devices.groups, views["deviceId"])
    && EdgesAgree(edges.Table(), views)
  }

  /** The body of the transaction loop for index `i`: `transactions.push(...)` of transaction `t_i`. */
  method NewTransactionEntry(i: nat, usersCount: nat, probability: real, d: TransactionDraws,
                             ghost transactions: seq<Transaction>, ghost views: Views,
                             ghost draws: nat -> TransactionDraws, ips: GroupList, devices: GroupList, edges: EdgeMap)
    returns (t: Transaction)
    requires ValidTransactionDraws(d) && d == draws(i)
    requires TransactionLoop(transactions, views, usersCount, draws, ips, devices, edges, i)
    modifies ips, devices, edges
    ensures TransactionLoop(transactions + [t], WithTransaction(views, t), usersCount, draws, ips, devices, edges, i + 1)
    ensures IsTransaction(t, i, usersCount, d)
    ensures probability <= 0.0 ==> edges.Table() == old(edges.Table())
  {
    var id := TransactionId(i);
    IdsNext(TransactionPrefix, i);
    EndpointsWiden(edges.Table(), TransactionIds(i), TransactionIds(i + 1));
    var ip, deviceId := AssignPair(ips, devices, edges, i, id, DefaultIp, "ip", DefaultDeviceId, "deviceId",
                                   probability, d.ip, d.device, TransactionIds(i), TransactionTags, views);
    t := NewTransaction(i, usersCount, d, ip, deviceId);
    BuiltSnoc(transactions, t, TransactionAt(usersCount, draws));
    TransactionsViewedSnoc(views, transactions, t, i);
  }

  /** The transaction loop: `transactionsCount` transactions between the generated users. */
  method BuildTransactions(transactionsCount: nat, usersCount: nat, probability: real, draws: nat -> TransactionDraws)
    returns (transactions: seq<Transaction>, edges: EdgeMap)
    requires forall i :: ValidTransactionDraws(draws(i))
    ensures fresh(edges)
    ensures |transactions| == transactionsCount
    ensures forall i :: 0 <= i < transactionsCount ==> IsTransaction(transactions[i], i, usersCount, draws(i))
    ensures EdgesWithin(edges, TransactionIds(transactionsCount), TransactionTags)
    ensures TransactionEdgesShare(FinalizeEdges(edges.Table()), transactions)
    ensures probability <= 0.0 ==> edges.Table() == EmptyTable
  {
    edges := new EdgeMap();
    var ips := new GroupList();
    var devices := new GroupList();
    transactions := [];
    ghost var views: Views := map["ip" := map[], "deviceId" := map[]];
    var i := 0;
    while i < transactionsCount
      invariant i <= transactionsCount
      invariant TransactionLoop(transactions, views, usersCount, draws, ips, devices, edges, i)
      invariant probability <= 0.0 ==> edges.Table() == EmptyTable
    {
      var t := NewTransactionEntry(i, usersCount, probability, draws(i), transactions, views, draws, ips, devices, edges);
      transactions, views := transactions + [t], WithTransaction(views, t);
      i := i + 1;
    }
    BuiltAll(transactions, TransactionAt(usersCount, draws));
    TransactionEdgesFromViews(edges.Table(), views, transactions, transactionsCount);
  }

  /**
   * What the store receives for one edge family: every record has its
   * smaller id first, joins two generated ids, carries a non-empty,
   * duplicate-free list of reasons drawn from `tags`, and no unordered pair
   * occurs twice.
   */
  predicate EdgeSetValid(edges: seq<EdgeRecord>, ids: set<string>, tags: set<string>) {
    && (forall i :: 0 <= i < |edges| ==>
          && Less(edges[i].source, edges[i].target)
          && edges[i].source in ids && edges[i].target in ids
          && |edges[i].reasons| > 0 && NoDuplicates(edges[i].reasons)
          && Elements(edges[i].reasons) <= tags)
    && (forall i, j :: 0 <= i < j < |edges| ==>
          {edges[i].source, edges[i].target} != {edges[j].source, edges[j].target})
  }

  lemma FinalizedEdgesValid(t: EdgeTable, ids: set<string>, tags: set<string>)
    requires WellFormed(t) && EndpointsIn(t, ids) && ReasonsWithin(t, tags)
    ensures EdgeSetValid(FinalizeEdges(t), ids, tags)
  {
    FinalizedPairsDistinct(t);
  }

  /** Fewer than two entities leave no room for an edge. */
  lemma NoEdgeAmongFewerThanTwo(t: EdgeTable, prefix: string, n: nat)
    requires WellFormed(t) && EndpointsIn(t, Ids(prefix, n)) && n < 2
    ensures t.order == []
  {
    if t.order != [] {
      var k := t.order[0];
      assert k in t.reasons;
      var i :| 0 <= i < n && EntityId(prefix, i) == k.source;
      var j :| 0 <= j < n && EntityId(prefix, j) == k.target;
      assert i == j == 0;
      LessIrreflexive(k.source);
    }
  }

  /** Between two ids there is room for exactly one edge. */
  lemma OneEdgeBetweenTwo(edges: seq<EdgeRecord>, a: string, b: string, tags: set<string>)
    requires EdgeSetValid(edges, {a, b}, tags) && Less(a, b) && edges != []
    ensures |edges| == 1 && edges[0].source == a && edges[0].target == b
  {
    LessIrreflexive(a);
    LessIrreflexive(b);
    LessAsymmetric(a, b);
    DistinctPairsAt(edges, {a, b}, tags, 0, 1);
  }

  lemma DistinctPairsAt(edges: seq<EdgeRecord>, ids: set<string>, tags: set<string>, i: nat, j: nat)
    ensures EdgeSetValid(edges, ids, tags) && i < j < |edges| ==>
      {edges[i].source, edges[i].target} != {edges[j].source, edges[j].target}
  {
  }

  /**
   * The seed step: when sharing was requested (`density > 0`), there are at
   * least two entities and the edge map is still empty, `addEdge` joins the
   * first two entities with the reason `seed`.
   */
  method AddSeedEdge(edges: EdgeMap, prefix: string, count: nat, density: real, ghost tags: set<string>)
    requires EdgesWithin(edges, Ids(prefix, count), tags)
    modifies edges
    ensures EdgesWithin(edges, Ids(prefix, count), tags + {SeedTag})
    ensures if old(edges.order) == [] && count > 1 && density > 0.0
            then edges.Table() == WithEdge(EmptyTable, EntityId(prefix, 0), EntityId(prefix, 1), SeedTag)
            else edges.Table() == old(edges.Table())
    ensures count > 1 && density > 0.0 ==> edges.order != []
  {
    if edges.Size() == 0 && count > 1 && density > 0.0 {
      assert edges.order == [];
      assert edges.Table() == EmptyTable;
      var a, b := EntityId(prefix, 0), EntityId(prefix, 1);
      EntityIdsDistinct(prefix, 0, 1);
      assert a in Ids(prefix, count) && b in Ids(prefix, count);
      WithEdgeKeepsEndpoints(EmptyTable, a, b, SeedTag, Ids(prefix, count));
      WithEdgeKeepsReasons(EmptyTable, a, b, SeedTag, tags + {SeedTag});
      edges.AddEdge(a, b, SeedTag);
      assert SeedTag in Elements(edges.reasons[Normalize(a, b)]);
    } else {
      ReasonsWiden(edges.Table(), tags, tags + {SeedTag});
      if count > 1 && density > 0.0 {
        assert edges.order != [] by {
          NoDuplicatesCardinality(edges.order, edges.reasons);
        }
      }
    }
  }

  lemma EndpointsWiden(t: EdgeTable, ids: set<string>, wider: set<string>)
    requires EndpointsIn(t, ids) && ids <= wider
    ensures EndpointsIn(t, wider)
  {
  }

  lemma ReasonsWiden(t: EdgeTable, tags: set<string>, wider: set<string>)
    requires ReasonsWithin(t, tags) && tags <= wider
    ensures ReasonsWithin(t, wider)
  {
  }

  /** The generator's result. */
  datatype SyntheticData = SyntheticData(
    users: seq<User>,
    transactions: seq<Transaction>,
    sharedEdges: seq<EdgeRecord>,
    transactionEdges: seq<EdgeRecord>,
    effectiveUserDensity: real,
    effectiveTransactionDensity: real)

  /**
   * `buildSyntheticData`. Every draw of `Math.random` comes from the two
   * oracles, one record per entity, so each property below holds for every
   * possible run.
   */
  /** The seed table holds at most one record, and its only reason is `seed`. */
  lemma SeedRecordOnlySeed(a: string, b: string)
    ensures var r := FinalizeEdges(WithEdge(EmptyTable, a, b, SeedTag));
      |r| <= 1 && forall e :: 0 <= e < |r| ==> r[e].reasons == [SeedTag]
  {
    assert WellFormed(EmptyTable);
    var t := WithEdge(EmptyTable, a, b, SeedTag);
    if a != "" && b != "" && a != b {
      var k := Normalize(a, b);
      assert t.order == [k] && t.reasons[k] == [SeedTag];
    }
  }

  /** Records whose only reason is `seed` claim no shared attribute. */
  lemma SeedClaimsNothing(records: seq<EdgeRecord>, users: seq<User>, transactions: seq<Transaction>)
    requires forall e :: 0 <= e < |records| ==> records[e].reasons == [SeedTag]
    ensures UserEdgesShare(records, users)
    ensures TransactionEdgesShare(records, transactions)
  {
    assert |SeedTag| == 4 && |"email"| == 5 && |"phone"| == 5 && |"address"| == 7;
    assert |"payment_methods"| == 15 && |"ip"| == 2 && |"deviceId"| == 8;
  }

  /**
   * The seed and finalise steps for one edge map: `addEdge(…, 'seed')` when
   * sharing was requested, there are two entities and the map is empty,
   * then `finalizeEdges`. The records are valid for the ids and tags: none
   * when sharing was not requested or there are fewer than two entities,
   * some otherwise.
   */
  method SeedAndFinalize(edges: EdgeMap, prefix: string, count: nat, density: real, ghost tags: set<string>)
    returns (records: seq<EdgeRecord>)
    requires EdgesWithin(edges, Ids(prefix, count), tags)
    requires density <= 0.0 ==> edges.Table() == EmptyTable
    modifies edges
    ensures edges.Table() == old(edges.Table())
            || edges.Table() == WithEdge(EmptyTable, EntityId(prefix, 0), EntityId(prefix, 1), SeedTag)
    ensures records == FinalizeEdges(edges.Table())
    ensures EdgeSetValid(records, Ids(prefix, count), tags + {SeedTag})
    ensures density <= 0.0 || count < 2 ==> records == []
    ensures density > 0.0 && count >= 2 ==> records != []
  {
    AddSeedEdge(edges, prefix, count, density, tags);
    FinalizedEdgesValid(edges.Table(), Ids(prefix, count), tags + {SeedTag});
    if count < 2 {
      NoEdgeAmongFewerThanTwo(edges.Table(), prefix, count);
    }
    records := FinalizeEdges(edges.Table());
  }

  /** The seed step, which adds a `seed` record or nothing, keeps what the records mean. */
  lemma SeedKeepsShares(before: EdgeTable, after: EdgeTable, a: string, b: string,
                        users: seq<User>, transactions: seq<Transaction>)
    requires WellFormed(before)
    requires after == before || after == WithEdge(EmptyTable, a, b, SeedTag)
    ensures UserEdgesShare(FinalizeEdges(before), users) ==> UserEdgesShare(FinalizeEdges(after), users)
    ensures TransactionEdgesShare(FinalizeEdges(before), transactions) ==>
              TransactionEdgesShare(FinalizeEdges(after), transactions)
  {
    if after != before {
      SeedRecordOnlySeed(a, b);
      SeedClaimsNothing(FinalizeEdges(after), users, transactions);
    }
  }

  method BuildSyntheticData(usersCount: nat, transactionsCount: nat, userDensity: real, transactionDensity: real,
                            userDraws: nat -> UserDraws, transactionDraws: nat -> TransactionDraws)
    returns (data: SyntheticData)
    requires forall i :: ValidUserDraws(userDraws(i))
    requires forall i :: ValidTransactionDraws(transactionDraws(i))
    ensures data.effectiveUserDensity == SparseProbability(userDensity, usersCount, 8.0, 0.1)
    ensures data.effectiveTransactionDensity == SparseProbability(transactionDensity, transactionsCount, 6.0, 0.08)
    ensures |data.users| == usersCount
    ensures forall i :: 0 <= i < usersCount ==> UserAt(data.users[i], i)
    ensures |data.transactions| == transactionsCount
    ensures forall i :: 0 <= i < transactionsCount ==> IsTransaction(data.transactions[i], i, usersCount, transactionDraws(i))
    ensures EdgeSetValid(data.sharedEdges, UserIds(usersCount), UserTags + {SeedTag})
    ensures EdgeSetValid(data.transactionEdges, TransactionIds(transactionsCount), TransactionTags + {SeedTag})
    ensures userDensity <= 0.0 || usersCount < 2 ==> data.sharedEdges == []
    ensures userDensity > 0.0 && usersCount >= 2 ==> data.sharedEdges != []
    ensures transactionDensity <= 0.0 || transactionsCount < 2 ==> data.transactionEdges == []
    ensures transactionDensity > 0.0 && transactionsCount >= 2 ==> data.transactionEdges != []
    ensures UserEdgesShare(data.sharedEdges, data.users)
    ensures TransactionEdgesShare(data.transactionEdges, data.transactions)
  {
    var userProbability := SparseProbability(userDensity, usersCount, 8.0, 0.1);
    var transactionProbability := SparseProbability(transactionDensity, transactionsCount, 6.0, 0.08);
    var users, sharedEdgeMap := BuildUsers(usersCount, userProbability, userDraws);
    var transactions, transactionEdgeMap := BuildTransactions(transactionsCount, usersCount, transactionProbability, transactionDraws);
    ghost var sharedBefore, transactionBefore := sharedEdgeMap.Table(), transactionEdgeMap.Table();
    var sharedEdges := SeedAndFinalize(sharedEdgeMap, UserPrefix, usersCount, userDensity, UserTags);
    var transactionEdges := SeedAndFinalize(transactionEdgeMap, TransactionPrefix, transactionsCount,
                                            transactionDensity, TransactionTags);
    SeedKeepsShares(sharedBefore, sharedEdgeMap.Table(), UserId(0), UserId(1), users, transactions);
    SeedKeepsShares(transactionBefore, transactionEdgeMap.Table(), TransactionId(0), TransactionId(1), users, transactions);
    data := SyntheticData(users, transactions, sharedEdges, transactionEdges, userProbability, transactionProbability);
  }

  /**
   * Two users and any positive density: the shared edges are exactly one
   * record, `u_0` to `u_1`, whether it came from sharing or from the seed.
   */
  lemma TwoUsersShareOneEdge(data: SyntheticData)
    requires EdgeSetValid(data.sharedEdges, UserIds(2), UserTags + {SeedTag}) && data.sharedEdges != []
    ensures |data.sharedEdges| == 1
    ensures data.sharedEdges[0].source == "u_0" && data.sharedEdges[0].target == "u_1"
  {
    assert UserId(0) == "u_0" && UserId(1) == "u_1";
    assert UserIds(2) == {"u_0", "u_1"} by {
      assert Ids(UserPrefix, 0) == {};
      IdsNext(UserPrefix, 0);
      IdsNext(UserPrefix, 1);
    }
    assert Less("u_0", "u_1");
    OneEdgeBetweenTwo(data.sharedEdges, "u_0", "u_1", UserTags + {SeedTag});
  }
}
