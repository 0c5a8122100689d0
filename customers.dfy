/**
 * `generate_customers` (etl/generate_data.py:92-124,
 * etl/generate_data_simple.py:27-53).
 *
 * Faker's outputs are parameters: one stream of candidate e-mail addresses,
 * consumed by the retry-until-fresh loop across all customers, and one draw
 * of names and signup day per customer.
 */
module CustomerGenerator {
  import opened Wrappers
  import opened Records
  import opened Schema

  datatype CustomerDraw = CustomerDraw(firstName: string, lastName: string, signupDate: Day)

  /**
   * The distinct elements of `s` in order of first occurrence: what the
   * retry loop keeps from a stream of candidates.
   */
  function Dedup(s: seq<string>): (r: seq<string>)
    ensures Distinct(r)
    ensures |r| <= |s|
  {
    if s == [] then []
    else
      var r0 := Dedup(s[..|s| - 1]);
      var x := s[|s| - 1];
      if x in r0 then r0 else r0 + [x]
  }

  /** Every address kept comes from the stream. */
  lemma {:induction false} DedupFromStream(s: seq<string>)
    ensures forall x :: x in Dedup(s) ==> x in s
  {
    if s != [] {
      DedupFromStream(s[..|s| - 1]);
      assert s == s[..|s| - 1] + [s[|s| - 1]];
    }
  }

  /** Reading more of the stream only appends to what was kept so far. */
  lemma {:induction false} DedupPrefix(s: seq<string>, p: nat)
    requires p <= |s|
    ensures |Dedup(s[..p])| <= |Dedup(s)|
    ensures Dedup(s[..p]) == Dedup(s)[..|Dedup(s[..p])|]
    decreases |s| - p
  {
    if p < |s| {
      DedupPrefix(s, p + 1);
      assert s[..p + 1][..p] == s[..p];
    } else {
      assert s[..p] == s;
    }
  }

  /** Whether the full script's schema accepts the names and chosen addresses. */
  predicate CustomerTextOk(draws: seq<CustomerDraw>, emailStream: seq<string>)
    requires |Dedup(emailStream)| >= |draws|
  {
    forall k :: 0 <= k < |draws| ==>
      |draws[k].firstName| >= 1 && |draws[k].lastName| >= 1 && |Dedup(emailStream)[k]| >= 5
  }

  function CustomerRow(k: nat, d: CustomerDraw, email: string): Customer
  {
    Customer(k + 1, Some(d.firstName), Some(d.lastName), email, d.signupDate)
  }

  /** The customer list the loop builds from its draws. */
  function CustomerRows(draws: seq<CustomerDraw>, emailStream: seq<string>): (rows: seq<Customer>)
    requires |Dedup(emailStream)| >= |draws|
    ensures |rows| == |draws|
    ensures Dense(CustomerIds(rows))
    ensures Distinct(Emails(rows))
    ensures forall c :: c in rows ==> c.email in emailStream && c.firstName.Some? && c.lastName.Some?
  {
    var emails := Dedup(emailStream);
    DedupFromStream(emailStream);
    var rows := seq(|draws|, k requires 0 <= k < |draws| => CustomerRow(k, draws[k], emails[k]));
    assert forall k :: 0 <= k < |rows| ==> Emails(rows)[k] == emails[k];
    rows
  }

  lemma CustomersSchemaIff(draws: seq<CustomerDraw>, emailStream: seq<string>)
    requires |Dedup(emailStream)| >= |draws|
    ensures CustomersSchema(CustomerRows(draws, emailStream))
        <==> |draws| > 0 && CustomerTextOk(draws, emailStream)
  {
    var rows := CustomerRows(draws, emailStream);
    DenseIsDistinct(CustomerIds(rows));
    if |draws| > 0 && CustomerTextOk(draws, emailStream) {
      forall c | c in rows
        ensures c.customerId > 0 && TextAtLeast(c.firstName, 1) && TextAtLeast(c.lastName, 1) && |c.email| >= 5
      {
        var k :| 0 <= k < |rows| && rows[k] == c;
        assert CustomerIds(rows)[k] == c.customerId;
      }
    }
    if CustomersSchema(rows) {
      forall k | 0 <= k < |draws|
        ensures |draws[k].firstName| >= 1 && |draws[k].lastName| >= 1 && |Dedup(emailStream)[k]| >= 5
      {
        assert rows[k] in rows;
      }
    }
  }

  /** One more candidate read from the stream. */
  lemma DedupStep(s: seq<string>, p: nat)
    requires p < |s|
    ensures Dedup(s[..p + 1]) == if s[p] in Dedup(s[..p]) then Dedup(s[..p]) else Dedup(s[..p]) + [s[p]]
  {
    assert s[..p + 1][..p] == s[..p];
  }

  /** While fewer addresses were kept than the stream offers, the stream is not used up. */
  lemma StreamNotExhausted(s: seq<string>, p: nat)
    requires p <= |s|
    requires |Dedup(s[..p])| < |Dedup(s)|
    ensures p < |s|
  {
    assert s[..|s|] == s;
  }

  /**
   * Draws candidates from position `p` on until one is not yet in `emails`,
   * the addresses handed out so far; `q` is the position after it.
   */
  method NextFreshEmail(emailStream: seq<string>, p: nat, emails: set<string>, ghost kept: seq<string>)
    returns (email: string, q: nat)
    requires p <= |emailStream|
    requires Dedup(emailStream[..p]) == kept
    requires |kept| < |Dedup(emailStream)|
    requires forall x :: x in emails <==> x in kept
    ensures p < q <= |emailStream|
    ensures email !in emails
    ensures Dedup(emailStream[..q]) == kept + [email]
  {
    StreamNotExhausted(emailStream, p);
    email := emailStream[p];
    DedupStep(emailStream, p);
    q := p + 1;
    while email in emails
      invariant p < q <= |emailStream|
      invariant email == emailStream[q - 1]
      invariant Dedup(emailStream[..q]) == if email in kept then kept else kept + [email]
      decreases |emailStream| - q
    {
      StreamNotExhausted(emailStream, q);
      email := emailStream[q];
      DedupStep(emailStream, q);
      q := q + 1;
    }
  }

  /** The loop over customer ids, handing out a fresh address to each. */
  method BuildCustomers(emailStream: seq<string>, draws: seq<CustomerDraw>) returns (customers: seq<Customer>)
    requires |Dedup(emailStream)| >= |draws|
    ensures customers == CustomerRows(draws, emailStream)
  {
    customers := [];
    var emails: set<string> := {};
    ghost var kept: seq<string> := [];
    var p := 0;
    var k := 0;
    while k < |draws|
      invariant 0 <= k <= |draws|
      invariant 0 <= p <= |emailStream|
      invariant Dedup(emailStream[..p]) == kept
      invariant |kept| == k
      invariant forall x :: x in emails <==> x in kept
      invariant |customers| == k
      invariant forall j :: 0 <= j < k ==> customers[j] == CustomerRow(j, draws[j], kept[j])
    {
      var email;
      email, p := NextFreshEmail(emailStream, p, emails, kept);
      emails := emails + {email};
      kept := kept + [email];
      customers := customers + [CustomerRow(k, draws[k], email)];
      k := k + 1;
    }
    DedupPrefix(emailStream, p);
  }

  /** Builds `numCustomers` customers with ids 1..numCustomers, then applies the schema step. */
  method GenerateCustomers(variant: Variant, numCustomers: int, emailStream: seq<string>, draws: seq<CustomerDraw>)
    returns (r: Result<seq<Customer>, GenerationError>)
    requires |draws| == RangeLength(numCustomers)
    requires |Dedup(emailStream)| >= |draws|
    ensures r == Gate(variant, CustomersSchema(CustomerRows(draws, emailStream)), CustomersTable,
                      CustomerRows(draws, emailStream))
    ensures r.Success? <==> variant.Simple? || (numCustomers >= 1 && CustomerTextOk(draws, emailStream))
  {
    var customers := BuildCustomers(emailStream, draws);
    CustomersSchemaIff(draws, emailStream);
    r := Gate(variant, CustomersSchema(customers), CustomersTable, customers);
  }
}
