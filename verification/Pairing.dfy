/** The one-shot pairing code. */
module Pairing {
  const TTL_MS := 300_000

  datatype VerifyResult = Accepted | BadCode | Expired | Used

  /** Times are milliseconds of a monotonic clock. */
  datatype Code = Code(code: string, key: seq<int>, created: nat, consumed: bool)

  function Check(c: Code, candidate: string, now: nat): VerifyResult
  {
    if c.consumed then Used
    else if now - c.created > TTL_MS then Expired
    else if c.code != candidate then BadCode
    else Accepted
  }

  /** The code after the attempt: spent by success and by nothing else. */
  function Spend(c: Code, candidate: string, now: nat): Code
  {
    if Check(c, candidate, now).Accepted? then c.(consumed := true) else c
  }

  function Fresh(code: string, key: seq<int>, now: nat): Code { Code(code, key, now, false) }

  class PairingStore {
    var inner: Code

    constructor (code: string, key: seq<int>, now: nat)
      ensures inner == Fresh(code, key, now)
    {
      inner := Code(code, key, now, false);
    }

    method VerifyAndConsume(candidate: string, now: nat) returns (r: VerifyResult)
      modifies this
      ensures r == Check(old(inner), candidate, now) && inner == Spend(old(inner), candidate, now)
      ensures inner == old(inner).(consumed := old(inner).consumed || r.Accepted?)
      ensures var c, age := old(inner), now - old(inner).created;
              && (r.Accepted? <==> !c.consumed && candidate == c.code && age <= 300 * 1000)
              && (r.Used? <==> c.consumed)
              && (r.Expired? <==> !c.consumed && age > 300 * 1000)
              && (r.BadCode? <==> !c.consumed && age <= 300 * 1000 && candidate != c.code)
    {
      if inner.consumed {
        return Used;
      }
      if now - inner.created > TTL_MS {
        return Expired;
      }
      if inner.code != candidate {
        return BadCode;
      }
      inner := inner.(consumed := true);
      r := Accepted;
    }

    method Rotate(code: string, key: seq<int>, now: nat)
      modifies this
      ensures inner == Fresh(code, key, now)
    {
      inner := inner.(code := code);
      inner := inner.(key := key);
      inner := inner.(created := now);
      inner := inner.(consumed := false);
    }
  }
}
