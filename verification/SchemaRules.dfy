/** The shapes of the schemas by how their texts are made up, and what the Gate therefore takes. */
module SchemaRules {
  import opened Text
  import opened Paths
  import opened Schema
  import opened Policy
  import opened Evidence
  import opened GateService

  // --- Texts --------------------------------------------------------------------------------------------------------

  predicate DigitOrSmall(c: char) {
    var code := c as int;
    48 <= code < 58 || 97 <= code < 123
  }

  predicate DigitOrLetter(c: char) {
    DigitOrSmall(c) || 65 <= c as int < 91
  }

  /** A digit or letter, and up to 127 more of them, dots, underscores and hyphens. */
  ghost predicate IdText(s: string) {
    exists first: char, rest: string ::
      s == [first] + rest && |rest| < 128 && DigitOrLetter(first)
      && forall c :: c in rest ==> DigitOrLetter(c) || c == '.' || c == '_' || c == '-'
  }

  /** One to 512 code units. */
  ghost predicate LabelText(s: string) {
    exists units :: Spells(units, s) && 0 < |units| < 513
  }

  /** Digits, small letters and hyphens, but none at either end. */
  predicate HostLabel(s: string) {
    && s != "" && DigitOrSmall(s[0]) && DigitOrSmall(s[|s| - 1])
    && forall c :: c in s ==> DigitOrSmall(c) || c == '-'
  }

  /** Host labels with dots between them, 253 characters at most. */
  ghost predicate HostText(s: string) {
    |s| < 254 && exists parts: seq<string> :: parts != [] && s == Joined(parts, '.') && forall p :: p in parts ==> HostLabel(p)
  }

  predicate Run(s: string) {
    s != "" && forall c :: c in s ==> DigitOrSmall(c)
  }

  /** A release and runs with dots between them, or a deployment and one run; 64 characters at most. */
  ghost predicate ReleaseText(s: string) {
    |s| < 65 && (NamesRelease(s) || NamesDeployment(s))
  }

  ghost predicate NamesRelease(s: string) {
    exists parts: seq<string> :: parts != [] && s == "release-" + Joined(parts, '.') && forall p :: p in parts ==> Run(p)
  }

  ghost predicate NamesDeployment(s: string) {
    exists run: string :: s == "prod.deploy." + run && Run(run)
  }

  lemma IdExactlyWhen(s: string)
    ensures IsId(s) <==> IdText(s)
  {
    hide IsAlphanumeric, DigitOrLetter;
    forall c: char ensures IsAlphanumeric(c) <==> DigitOrLetter(c) {
      LettersAreLetters(c);
    }
    if IsId(s) {
      var first, rest := s[0], s[1..];
      assert s == [first] + rest;
      forall c | c in rest ensures c in s {
      }
    }
    if IdText(s) {
      var first: char, rest: string :| && s == [first] + rest && |rest| < 128 && DigitOrLetter(first)
                                       && forall c :: c in rest ==> DigitOrLetter(c) || c == '.' || c == '_' || c == '-';
      forall c | c in s ensures c == first || c in rest {
      }
    }
  }

  lemma LettersAreLetters(c: char)
    ensures IsAlphanumeric(c) <==> DigitOrLetter(c)
  {
  }

  lemma LabelExactlyWhen(s: string)
    ensures IsLabel(s) <==> LabelText(s)
  {
    hide Spells, Utf16Length;
    LengthCountsCodeUnits(s);
    if IsLabel(s) {
      var units :| Spells(units, s);
      assert |units| == Utf16Length(s);
    }
  }

  lemma HostPartExactlyWhen(part: string)
    ensures IsHostPart(part) <==> HostLabel(part)
  {
    if IsHostPart(part) {
      assert part[0] in part && part[|part| - 1] in part;
    }
  }

  lemma HostLabelHasNoDot(part: string)
    requires HostLabel(part)
    ensures '.' !in part
  {
  }

  lemma HostExactlyWhen(s: string)
    ensures IsHost(s) <==> HostText(s)
  {
    hide Split, Joined, IsHostPart, HostLabel;
    forall part ensures IsHostPart(part) <==> HostLabel(part) {
      HostPartExactlyWhen(part);
    }
    JoinUndoesSplit(s, '.');
    forall parts: seq<string> | parts != [] && s == Joined(parts, '.') && forall p :: p in parts ==> HostLabel(p)
      ensures Split(s, '.') == parts
    {
      forall p | p in parts ensures '.' !in p {
        HostLabelHasNoDot(p);
      }
      SplitJoined(parts, '.');
    }
  }

  lemma RunExactlyWhen(part: string)
    ensures IsReleasePart(part) <==> Run(part)
    ensures Run(part) ==> '.' !in part
  {
  }

  lemma ReleaseTailExactlyWhen(s: string)
    ensures IsVersion(s) <==>
              exists parts: seq<string> :: parts != [] && s == Joined(parts, '.') && forall p :: p in parts ==> Run(p)
  {
    hide Split, Joined, IsReleasePart, Run;
    forall part ensures IsReleasePart(part) <==> Run(part) {
      RunExactlyWhen(part);
    }
    JoinUndoesSplit(s, '.');
    forall parts: seq<string> | parts != [] && s == Joined(parts, '.') && forall p :: p in parts ==> Run(p)
      ensures Split(s, '.') == parts
    {
      forall p | p in parts ensures '.' !in p {
        RunExactlyWhen(p);
      }
      SplitJoined(parts, '.');
    }
  }

  lemma PrefixSplits(s: string, prefix: string)
    ensures prefix <= s <==> exists tail: string :: s == prefix + tail
    ensures forall tail: string :: s == prefix + tail ==> tail == s[|prefix|..]
  {
    if prefix <= s {
      assert s == prefix + s[|prefix|..];
    }
  }

  lemma VersionExactlyWhen(s: string)
    ensures "release-" <= s && IsVersion(s[8..]) <==> NamesRelease(s)
  {
    hide IsVersion, Run;
    if "release-" <= s {
      ReleaseTailExactlyWhen(s[8..]);
      assert s == "release-" + s[8..];
    }
    if NamesRelease(s) {
      var parts: seq<string> :| parts != [] && s == "release-" + Joined(parts, '.') && forall p :: p in parts ==> Run(p);
      assert "release-" <= s && Joined(parts, '.') == s[8..];
      assert IsVersion(s[8..]);
    }
  }

  lemma DeploymentExactlyWhen(s: string)
    ensures "prod.deploy." <= s && IsReleasePart(s[12..]) <==> NamesDeployment(s)
  {
    hide IsReleasePart, Run;
    if "prod.deploy." <= s {
      RunExactlyWhen(s[12..]);
      assert s == "prod.deploy." + s[12..];
    }
    forall run: string | s == "prod.deploy." + run ensures "prod.deploy." <= s && run == s[12..] {
    }
  }

  lemma ReleaseExactlyWhen(s: string)
    ensures IsRelease(s) <==> ReleaseText(s)
  {
    hide IsVersion, IsReleasePart, NamesRelease, NamesDeployment;
    VersionExactlyWhen(s);
    DeploymentExactlyWhen(s);
  }

  // --- Requests -----------------------------------------------------------------------------------------------------

  /** What the schema takes for a request; costs are in micro-dollars. */
  ghost predicate FitRequest(r: Request) {
    && IdText(r.agentId) && IdText(r.action) && IdText(r.tool) && LabelText(r.resource)
    && (r.destination == None || HostText(r.destination.value))
    && r.costMicros <= 1_000_000_000_000
    && (r.approvalId == None || IdText(r.approvalId.value))
    && (if r.tool == "demo.deploy.execute" then r.input.Some? && ReleaseText(r.input.value) else r.input == None)
  }

  lemma RequestExactlyWhen(r: Request)
    ensures IsRequest(r) <==> FitRequest(r)
  {
    hide IsId, IdText, IsLabel, LabelText, IsHost, HostText, IsRelease, ReleaseText;
    IdExactlyWhen(r.agentId);
    IdExactlyWhen(r.action);
    IdExactlyWhen(r.tool);
    LabelExactlyWhen(r.resource);
    if r.destination.Some? {
      HostExactlyWhen(r.destination.value);
    }
    if r.approvalId.Some? {
      IdExactlyWhen(r.approvalId.value);
    }
    if r.input.Some? {
      ReleaseExactlyWhen(r.input.value);
    }
  }

  // --- Envelopes ----------------------------------------------------------------------------------------------------

  ghost predicate LabelTexts(list: seq<string>) {
    |list| < 1001 && forall l :: l in list ==> LabelText(l)
  }

  ghost predicate IdTexts(list: seq<string>) {
    forall s :: s in list ==> IdText(s)
  }

  /** A canonical path, or the tree below one. */
  ghost predicate ScopeText(s: string) {
    exists segments :: Proper(segments) && (s == Path(segments) || s == Path(segments) + "/**")
  }

  predicate FitsKind(kind: ResourceKind, operation: Operation) {
    match operation
    case Access => kind == Secrets
    case Communicate => kind == Agents
    case Read => kind != Secrets && kind != Agents
    case Write => kind != Secrets && kind != Agents
  }

  ghost predicate FitBinding(e: Envelope, b: Binding) {
    && IdText(b.action) && LabelText(b.outcome) && IdText(b.tool) && FitsKind(b.kind, b.operation)
    && b.outcome in e.allowedOutcomes && b.outcome !in e.forbiddenOutcomes && b.tool in e.toolsAllow && b.tool !in e.toolsDeny
    && (forall tail: string :: b.action != "envelope." + tail && b.action != "agent.register" + tail)
  }

  /** What the schema takes for an envelope. */
  ghost predicate FitEnvelope(e: Envelope) {
    && IdText(e.agentId) && LabelText(e.identity.name) && IdText(e.identity.role) && IdText(e.identity.owner) && IdText(e.taskId)
    && LabelTexts(e.allowedOutcomes) && LabelTexts(e.forbiddenOutcomes) && 0 < |e.allowedOutcomes|
    && (forall p :: p in [e.repositories, e.files, e.databases, e.infrastructure] ==> LabelTexts(p.read) && LabelTexts(p.write))
    && (forall s :: s in e.files.read || s in e.files.write ==> ScopeText(s))
    && IdTexts(e.toolsAllow) && IdTexts(e.toolsDeny) && IdTexts(e.communicateWith)
    && (forall h :: h in e.networkAllow ==> HostText(h)) && (forall h :: h in e.networkDeny ==> h == "*" || HostText(h))
    && 0 < e.limits.maxRuntimeSeconds <= 86400 && 0 < e.limits.maxToolCalls <= 9_007_199_254_740_991
    && e.limits.maxExternalRequests <= 9_007_199_254_740_991 && e.limits.maxRetriesPerAction <= 9_007_199_254_740_991
    && e.limits.maxCostMicros <= 1_000_000_000_000
    && 0 < |e.bindings| < 1001 && (forall b :: b in e.bindings ==> FitBinding(e, b))
    && (forall i, j :: 0 <= i < |e.bindings| && 0 <= j < |e.bindings| && e.bindings[i].action == e.bindings[j].action ==> i == j)
    && (forall r :: r in e.approvals ==> IdText(r.action) && IdText(r.approverRole) && exists b :: b in e.bindings && b.action == r.action)
    && (forall i, j :: 0 <= i < |e.approvals| && 0 <= j < |e.approvals| && e.approvals[i].action == e.approvals[j].action ==> i == j)
  }

  lemma TextsExactlyWhen()
    ensures forall s :: IsId(s) <==> IdText(s)
    ensures forall s :: IsLabel(s) <==> LabelText(s)
    ensures forall s :: IsHost(s) <==> HostText(s)
  {
    hide IsId, IdText, IsLabel, LabelText, IsHost, HostText;
    forall s ensures IsId(s) <==> IdText(s) {
      IdExactlyWhen(s);
    }
    forall s ensures IsLabel(s) <==> LabelText(s) {
      LabelExactlyWhen(s);
    }
    forall s ensures IsHost(s) <==> HostText(s) {
      HostExactlyWhen(s);
    }
  }

  /** The members one by one. */
  ghost predicate MembersFit(e: Envelope) {
    && IdText(e.agentId) && LabelText(e.identity.name) && IdText(e.identity.role) && IdText(e.identity.owner) && IdText(e.taskId)
    && LabelTexts(e.allowedOutcomes) && LabelTexts(e.forbiddenOutcomes) && 0 < |e.allowedOutcomes|
    && (forall p :: p in [e.repositories, e.files, e.databases, e.infrastructure] ==> LabelTexts(p.read) && LabelTexts(p.write))
    && IdTexts(e.toolsAllow) && IdTexts(e.toolsDeny) && IdTexts(e.communicateWith)
    && (forall h :: h in e.networkAllow ==> HostText(h)) && (forall h :: h in e.networkDeny ==> h == "*" || HostText(h))
    && 0 < e.limits.maxRuntimeSeconds <= 86400 && 0 < e.limits.maxToolCalls <= 9_007_199_254_740_991
    && e.limits.maxExternalRequests <= 9_007_199_254_740_991 && e.limits.maxRetriesPerAction <= 9_007_199_254_740_991
    && e.limits.maxCostMicros <= 1_000_000_000_000
    && 0 < |e.bindings| < 1001
    && (forall b :: b in e.bindings ==> IdText(b.action) && LabelText(b.outcome) && IdText(b.tool))
    && (forall r :: r in e.approvals ==> IdText(r.action) && IdText(r.approverRole))
  }

  lemma ListsExactlyWhen()
    ensures forall list :: Labels(list) <==> LabelTexts(list)
    ensures forall list :: Ids(list) <==> IdTexts(list)
  {
    hide IsId, IdText, IsLabel, LabelText, IsHost, HostText;
    TextsExactlyWhen();
  }

  lemma ShapedExactlyWhenMembersFit(e: Envelope)
    ensures Shaped(e) <==> MembersFit(e)
  {
    hide IsId, IdText, IsLabel, LabelText, IsHost, HostText, Labels, LabelTexts, Ids, IdTexts;
    TextsExactlyWhen();
    ListsExactlyWhen();
    var all := [e.repositories, e.files, e.databases, e.infrastructure];
    assert all[0] == e.repositories && all[1] == e.files && all[2] == e.databases && all[3] == e.infrastructure;
  }

  lemma BindingExactlyWhen(e: Envelope, b: Binding)
    ensures FitBinding(e, b) <==> BindingAccepted(e, b) && IdText(b.action) && LabelText(b.outcome) && IdText(b.tool)
  {
    hide IdText, LabelText;
    PrefixSplits(b.action, "envelope.");
    PrefixSplits(b.action, "agent.register");
  }

  lemma ScopeTextExactlyWhen(s: string)
    ensures CanonicalScope(s) <==> ScopeText(s)
  {
    hide CanonicalScope, Path, Proper;
    ScopeExactlyWhen(s);
  }

  /** The schema accepts an envelope exactly when each member has its shape and all of them fit together. */
  lemma EnvelopeExactlyWhen(e: Envelope)
    ensures WellFormed(e) <==> FitEnvelope(e)
  {
    hide Shaped, BindingAccepted, FitBinding, CanonicalScope, ScopeText, IdText, LabelText, LabelTexts, IdTexts, HostText, FindBinding;
    ShapedExactlyWhenMembersFit(e);
    forall b ensures FitBinding(e, b) <==> BindingAccepted(e, b) && IdText(b.action) && LabelText(b.outcome) && IdText(b.tool) {
      BindingExactlyWhen(e, b);
    }
    forall s ensures CanonicalScope(s) <==> ScopeText(s) {
      ScopeTextExactlyWhen(s);
    }
    assert forall s :: s in e.files.read + e.files.write <==> s in e.files.read || s in e.files.write;
  }

  // --- What the Gate takes ------------------------------------------------------------------------------------------

  /** An envelope is issued exactly to a registered, unrevoked agent, by an administrator, in shape and before it expires. */
  lemma EnvelopeIsIssuedExactlyWhen(db: Db, principal: Principal, e: Envelope, env: Ambient)
    ensures var (after, outcome) := Step(db, SetEnvelope(principal, e), env);
            && (outcome == Done <==>
                  && principal.Admin? && FitEnvelope(e) && env.now < e.expiresAt && env.appendOk
                  && e.agentId in db.agents && !db.agents[e.agentId].revoked)
            && (outcome == Done ==>
                  && after.policies == db.policies[e.agentId := IssuedPolicy(e, OfEnvelope(e), env.id)]
                  && after.evidence == db.evidence + [EnvelopeIssued(env.now, e.agentId, OfEnvelope(e), env.id, e)])
            && (outcome != Done ==> after == db)
  {
    hide WellFormed, FitEnvelope;
    EnvelopeExactlyWhen(e);
  }

  /** A request is judged exactly when it is in shape and comes from the registered agent it names; one decision is recorded. */
  lemma RequestIsJudgedExactlyWhen(db: Db, principal: Principal, r: Request, env: Ambient)
    ensures var (after, outcome) := Step(db, Authorize(principal, r), env);
            && (outcome.Decided? <==> FitRequest(r) && principal == AgentPrincipal(r.agentId) && r.agentId in db.agents && env.appendOk)
            && (outcome.Decided? ==>
                  && outcome.decision.request == r && outcome.decision.decisionId == env.id && outcome.decision.timestamp == env.now
                  && after.evidence == db.evidence + [AuthorizationDecision(outcome.decision)])
            && (!outcome.Decided? ==> after == db)
  {
    hide IsRequest, FitRequest, Evaluate;
    RequestExactlyWhen(r);
  }

  /** The last policy issued to the agent demands an approval of this role for this action. */
  predicate Demands(db: Db, r: Request, role: string) {
    && r.agentId in db.policies
    && exists rule :: rule in db.policies[r.agentId].envelope.approvals && rule.action == r.action && rule.approverRole == role
  }

  /**
   * An approval is issued exactly by an approver of the role the policy names for the action, for a request in shape and
   * without one, that would be allowed with one, of a live agent, and until a time to come within the envelope's. It then is
   * for this request under this policy, and is not used.
   */
  lemma ApprovalIsIssuedExactlyWhen(db: Db, role: string, r: Request, expiresAt: int, env: Ambient)
    requires r.agentId in db.policies ==> WellFormed(db.policies[r.agentId].envelope)
    ensures var (after, outcome) := Step(db, Approve(Approver(role), r, expiresAt), env);
            && (outcome == Done <==>
                  && FitRequest(r) && r.approvalId == None && Demands(db, r, role) && env.appendOk
                  && r.agentId in db.agents && !db.agents[r.agentId].revoked
                  && env.now < expiresAt <= db.policies[r.agentId].envelope.expiresAt
                  && Evaluate(r, Some(db.policies[r.agentId].envelope), ContextOf(db, r.agentId, true, env.now)) == Allow)
            && (outcome == Done ==>
                  var policy := db.policies[r.agentId];
                  after.approvals == db.approvals[env.id := Approval(env.id, r.agentId, policy.hash, policy.revision, OfRequest(r), role, expiresAt, false)])
            && (outcome != Done ==> after == db)
    ensures forall principal: Principal :: !principal.Approver? ==> Step(db, Approve(principal, r, expiresAt), env) == (db, Failed(403))
  {
    hide IsRequest, FitRequest, Evaluate, Shaped, BindingAccepted;
    RequestExactlyWhen(r);
    assert r.approvalId == None ==> Bound(r) == r;
    if r.agentId in db.policies {
      RuleIsDemanded(db, r, role);
    }
  }

  lemma RuleIsDemanded(db: Db, r: Request, role: string)
    requires r.agentId in db.policies && WellFormed(db.policies[r.agentId].envelope)
    ensures var rule := FindRule(db.policies[r.agentId].envelope.approvals, r.action);
            Demands(db, r, role) <==> rule.Some? && rule.value.approverRole == role
  {
    hide Shaped, BindingAccepted;
    var rules := db.policies[r.agentId].envelope.approvals;
    if Demands(db, r, role) {
      var rule :| rule in rules && rule.action == r.action && rule.approverRole == role;
      var i :| 0 <= i < |rules| && rules[i] == rule;
      assert FindRule(rules, r.action).Some?;
      var j :| 0 <= j < |rules| && rules[j] == FindRule(rules, r.action).value;
      assert i < j || j < i || i == j;
    }
  }
}
