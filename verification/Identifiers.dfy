// The ids the kernel, the engine and the broker make up: what they are made of,
// and that different events and mismatches of a run get different ones.
module Identifiers {
  import opened Wrappers
  import opened Protocol
  import opened Contracts
  import opened EventLog
  import opened ProofEngine

  /** Letters, digits, underscores and hyphens stay; everything else becomes an underscore. */
  lemma SanitizeMeaning(s: string)
    ensures |SanitizeIdPart(s)| == |s|
    ensures forall i :: 0 <= i < |s| ==>
      SanitizeIdPart(s)[i]
      == if || 'A' <= s[i] <= 'Z' || 'a' <= s[i] <= 'z' || '0' <= s[i] <= '9' || s[i] == '_' || s[i] == '-'
         then s[i] else '_'
  {
  }

  // Numbers

  predicate IsDigit(c: char) {
    '0' <= c <= '9'
  }

  predicate AreDigits(s: string) {
    forall i :: 0 <= i < |s| ==> IsDigit(s[i])
  }

  function ValueOf(s: string): int {
    if s == "" then 0 else 10 * ValueOf(s[..|s| - 1]) + (s[|s| - 1] as int - '0' as int)
  }

  /** The decimal digits of a number, without leading zeros. */
  lemma {:induction false} DecimalMeaning(n: nat)
    ensures Decimal(n) != "" && AreDigits(Decimal(n)) && ValueOf(Decimal(n)) == n
    ensures n > 0 ==> Decimal(n)[0] != '0'
  {
    if n < 10 {
      assert Decimal(n)[..0] == "";
    } else {
      DecimalMeaning(n / 10);
      var front, last := Decimal(n / 10), ['0' + (n % 10) as char];
      assert (front + last)[..|front|] == front;
    }
  }

  function ZeroDigits(n: nat): string {
    seq(n, _ => '0')
  }

  /** Zeros in front, up to the width. */
  lemma {:induction false} PadMeaning(s: string, width: nat)
    ensures PadStart(s, width) == ZeroDigits(if |s| < width then width - |s| else 0) + s
    decreases width - |s|
  {
    if |s| < width {
      PadMeaning("0" + s, width);
      assert ZeroDigits(width - |s|) + s == ZeroDigits(width - |s| - 1) + ("0" + s);
    } else {
      assert ZeroDigits(0) + s == s;
    }
  }

  lemma {:induction false} PaddedValue(k: nat, s: string)
    requires AreDigits(s)
    ensures AreDigits(ZeroDigits(k) + s) && ValueOf(ZeroDigits(k) + s) == ValueOf(s)
    decreases |s|, k
  {
    if s == "" {
      if k > 0 {
        PaddedValue(k - 1, "");
        assert (ZeroDigits(k) + "")[..k - 1] == ZeroDigits(k - 1) + "";
      }
    } else {
      var n := |s| - 1;
      PaddedValue(k, s[..n]);
      assert (ZeroDigits(k) + s)[..k + n] == ZeroDigits(k) + s[..n];
    }
  }

  /** The number of an event in its id: its digits, at least four of them. */
  function NumberPart(n: nat): string {
    PadStart(Decimal(n), 4)
  }

  lemma NumberPartMeaning(n: nat)
    ensures AreDigits(NumberPart(n)) && ValueOf(NumberPart(n)) == n && |NumberPart(n)| >= 4
  {
    DecimalMeaning(n);
    PadMeaning(Decimal(n), 4);
    PaddedValue(if |Decimal(n)| < 4 then 4 - |Decimal(n)| else 0, Decimal(n));
  }

  // Event ids

  /** The id of the next event: its run, its number in the log and its type. */
  lemma EventIdMeaning(runId: string, lastSequence: nat, typeName: string)
    ensures NextEventId(runId, lastSequence, typeName)
         == "evt_" + SanitizeIdPart(runId) + "_" + NumberPart(lastSequence + 1) + "_" + SanitizeIdPart(typeName)
  {
  }

  /** Ids made up for different places of one log differ. */
  lemma EventIdsDiffer(runId: string, m: nat, n: nat, typeM: string, typeN: string)
    requires NextEventId(runId, m, typeM) == NextEventId(runId, n, typeN)
    ensures m == n
  {
    hide SanitizeIdPart, NextEventId;
    EventIdMeaning(runId, m, typeM);
    EventIdMeaning(runId, n, typeN);
    NumberPartMeaning(m + 1);
    NumberPartMeaning(n + 1);
    var front := "evt_" + SanitizeIdPart(runId) + "_";
    var a, b := NumberPart(m + 1), NumberPart(n + 1);
    var x, y := "_" + SanitizeIdPart(typeM), "_" + SanitizeIdPart(typeN);
    assert NextEventId(runId, m, typeM) == front + a + x;
    assert NextEventId(runId, n, typeN) == front + b + y;
    DigitsEndAlike(front, a, x, b, y);
  }

  /** Digits in front of something else end where it begins. */
  lemma DigitsEndAlike(front: string, a: string, x: string, b: string, y: string)
    requires AreDigits(a) && AreDigits(b) && front + a + x == front + b + y
    requires x != "" && y != "" && !IsDigit(x[0]) && !IsDigit(y[0])
    ensures a == b
  {
    var all, n := front + a + x, |front|;
    assert all[n..] == a + x && all[n..] == b + y;
    if |a| < |b| {
      RunsInto(a, x, b, y);
    }
    if |b| < |a| {
      RunsInto(b, y, a, x);
    }
    assert a == (a + x)[..|a|] && b == (b + y)[..|b|];
  }

  lemma RunsInto(a: string, x: string, b: string, y: string)
    requires a + x == b + y && |a| < |b| && x != ""
    ensures x[0] == b[|a|]
  {
    assert (a + x)[|a|] == x[0] && (b + y)[|a|] == b[|a|];
  }

  /** The types of events, as they are written. */
  lemma TypeNameMeaning(p: Payload)
    ensures p.RunStarted? ==> TypeName(p) == "RunStarted"
    ensures p.ProposalReceived? ==> TypeName(p) == "ProposalReceived"
    ensures p.EffectRequested? ==> TypeName(p) == "EffectRequested"
    ensures p.WritePreflightRequested? ==> TypeName(p) == "WritePreflightRequested"
    ensures p.WritePreflightDecided? ==> TypeName(p) == "WritePreflightDecided"
    ensures p.WriteQuarantined? ==> TypeName(p) == "WriteQuarantined"
    ensures p.MutationCommittedEvent? ==> TypeName(p) == "MutationCommitted"
    ensures p.ApprovalRequested? ==> TypeName(p) == "ApprovalRequested"
    ensures p.ApprovalGranted? ==> TypeName(p) == "ApprovalGranted"
    ensures p.ApprovalDenied? ==> TypeName(p) == "ApprovalDenied"
    ensures p.ApprovalExpired? ==> TypeName(p) == "ApprovalExpired"
    ensures p.EffectReceiptRecorded? ==> TypeName(p) == "EffectReceiptRecorded"
    ensures p.ExternalStateObserved? ==> TypeName(p) == "ExternalStateObserved"
    ensures p.ProofGenerated? ==> TypeName(p) == "ProofGenerated"
    ensures p.MismatchDetected? ==> TypeName(p) == "MismatchDetected"
    ensures p.ReleaseDecided? ==> TypeName(p) == "ReleaseDecided"
    ensures p.FinalReleased? ==> TypeName(p) == "FinalReleased"
  {
  }

  // Mismatch ids

  /** Mismatches of different claims of one candidate have different ids. */
  lemma MismatchIdsDiffer(a: string, t: MismatchType, i: nat, b: string, u: MismatchType, j: nat)
    requires BuildMismatchId(a, t, i) == BuildMismatchId(b, u, j)
    ensures i == j
  {
    hide SanitizeIdPart, MismatchText;
    DecimalMeaning(i);
    DecimalMeaning(j);
    var x := "mismatch_" + SanitizeIdPart(a) + "_" + MismatchText(t) + "_";
    var y := "mismatch_" + SanitizeIdPart(b) + "_" + MismatchText(u) + "_";
    DigitsBeginAlike(x, Decimal(i), y, Decimal(j));
  }

  /** A mismatch's id names its claim, its type as it is written, and the claim's place. */
  lemma MismatchIdMeaning(a: string, i: nat)
    ensures BuildMismatchId(a, MissingEvidence, i)
         == "mismatch_" + SanitizeIdPart(a) + "_" + "missing_evidence" + "_" + Decimal(i)
    ensures BuildMismatchId(a, UnsupportedClaim, i)
         == "mismatch_" + SanitizeIdPart(a) + "_" + "unsupported_claim" + "_" + Decimal(i)
    ensures BuildMismatchId(a, StaleExternalState, i)
         == "mismatch_" + SanitizeIdPart(a) + "_" + "stale_external_state" + "_" + Decimal(i)
    ensures BuildMismatchId(a, UnverifiedReceipt, i)
         == "mismatch_" + SanitizeIdPart(a) + "_" + "unverified_receipt" + "_" + Decimal(i)
  {
  }

  lemma DigitsBeginAlike(x: string, a: string, y: string, b: string)
    requires AreDigits(a) && AreDigits(b) && x + a == y + b
    requires x != "" && y != "" && !IsDigit(x[|x| - 1]) && !IsDigit(y[|y| - 1])
    ensures a == b
  {
    if |x| < |y| {
      RunsBack(x, a, y, b);
    }
    if |y| < |x| {
      RunsBack(y, b, x, a);
    }
    assert a == (x + a)[|x|..] && b == (y + b)[|y|..];
  }

  lemma RunsBack(x: string, a: string, y: string, b: string)
    requires x + a == y + b && |x| < |y|
    ensures |y| - 1 - |x| < |a| && y[|y| - 1] == a[|y| - 1 - |x|]
  {
    assert (y + b)[|y| - 1] == y[|y| - 1] && (x + a)[|y| - 1] == a[|y| - 1 - |x|];
  }

  /** The proof's id names the run, the candidate and the time it was made. */
  lemma ProofIdMeaning(c: FinalCandidate, at: Timestamp)
    ensures BuildProofId(c, at)
         == "proof_" + SanitizeIdPart(c.runId) + "_" + SanitizeIdPart(c.candidateId) + "_" + SanitizeIdPart(at.text)
  {
  }

  /** White space and line terminators (ECMA-262 sections 12.2 and 12.3). */
  lemma SpaceMeaning(c: char)
    ensures IsSpace(c) <==>
      || c as int in {9, 10, 11, 12, 13, 32, 160, 5760, 8232, 8233, 8239, 8287, 12288, 65279}
      || 8192 <= c as int <= 8202
  {
  }

  /** A text is blank when `trim` leaves nothing of it. */
  lemma BlankMeaning(s: string)
    ensures IsBlank(s) <==> forall i :: 0 <= i < |s| ==> IsSpace(s[i])
    ensures IsBlank("")
  {
    if IsBlank(s) {
      forall i | 0 <= i < |s|
        ensures IsSpace(s[i])
      {
        assert s[i] in s;
      }
    }
  }
}
