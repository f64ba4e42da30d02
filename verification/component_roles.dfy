/** The `roles` / `roleIntegration` pair of a Component. SBOL 2.3.0 requires a
    Component with roles to have a roleIntegration; writing a non-empty
    `roles` while `roleIntegration` is unset fills it in with the merge policy,
    an explicit `roleIntegration` is stored as given, and emptying `roles`
    never clears it. */
module ComponentRoles {
  import opened Results
  import opened Vocabulary

  datatype Component = Component(identity: string, roles: seq<string>, roleIntegration: Option<string>)

  /** The SBOL 2.3.0 requirement: roles present implies a roleIntegration. */
  predicate Consistent(c: Component) {
    |c.roles| > 0 ==> c.roleIntegration.Some?
  }

  /** `Component(uri)`: no roles and no roleIntegration. The identity is the
      `uri` argument as given. */
  function NewComponent(uri: string): (c: Component)
    ensures c.identity == uri
    ensures c.roles == [] && c.roleIntegration == None
    ensures Consistent(c)
  {
    Component(uri, [], None)
  }

  /** The auto-correction run after a `roles` write. */
  function ValidateRoleIntegration(c: Component): (r: Component)
    ensures Consistent(r)
    ensures r.identity == c.identity && r.roles == c.roles
    ensures c.roleIntegration.Some? ==> r.roleIntegration == c.roleIntegration
    ensures |c.roles| > 0 && c.roleIntegration.None? ==> r.roleIntegration == Some(SbolRoleIntegrationMerge)
    ensures Consistent(c) ==> r == c
  {
    if |c.roles| > 0 && c.roleIntegration.None? then c.(roleIntegration := Some(SbolRoleIntegrationMerge)) else c
  }

  /** `c.roles = roles`: stores the list, then runs the auto-correction. */
  function SetRoles(c: Component, roles: seq<string>): (r: Component)
    ensures r.roles == roles && r.identity == c.identity
    ensures Consistent(r)
    ensures c.roleIntegration.Some? ==> r.roleIntegration == c.roleIntegration
    ensures c.roleIntegration.None? ==>
              r.roleIntegration == (if |roles| > 0 then Some(SbolRoleIntegrationMerge) else None)
  {
    ValidateRoleIntegration(c.(roles := roles))
  }

  /** `c.roleIntegration = value`: stored exactly as given. */
  function SetRoleIntegration(c: Component, value: string): (r: Component)
    ensures r.roleIntegration == Some(value)
    ensures r.roles == c.roles && r.identity == c.identity
    ensures Consistent(r)
  {
    c.(roleIntegration := Some(value))
  }

  /** Re-running the auto-correction changes nothing, and writing the same
      roles twice is the same as writing them once. */
  lemma RoleRuleIdempotent(c: Component, roles: seq<string>)
    ensures ValidateRoleIntegration(ValidateRoleIntegration(c)) == ValidateRoleIntegration(c)
    ensures SetRoles(SetRoles(c, roles), roles) == SetRoles(c, roles)
  {
  }

  /** The sequence of assignments `test_role` performs, with its assertions. */
  lemma RoleScenario()
    ensures var c0 := NewComponent("c1");
            var c1 := SetRoles(c0, [SoPromoter]);
            var c2 := SetRoleIntegration(c1, SbolRoleIntegrationOverride);
            var c3 := SetRoles(c2, []);
            && c0.roleIntegration == None && c0.roles == []
            && c1.roleIntegration == Some(SbolRoleIntegrationMerge)
            && c3.roleIntegration == Some(SbolRoleIntegrationOverride)
            && c3.roles == []
  {
  }

  /** One attribute write on a Component. */
  datatype Write = WriteRoles(roles: seq<string>) | WriteRoleIntegration(value: string)

  /** Performs one attribute write. */
  function Apply(c: Component, w: Write): Component {
    match w
    case WriteRoles(roles) => SetRoles(c, roles)
    case WriteRoleIntegration(v) => SetRoleIntegration(c, v)
  }

  /** Applies writes in order; the last write is applied last. */
  function ApplyAll(c: Component, ws: seq<Write>): Component
    decreases |ws|
  {
    if |ws| == 0 then c else Apply(ApplyAll(c, ws[..|ws| - 1]), ws[|ws| - 1])
  }

  /** The value of the last explicit `roleIntegration` write, if any. */
  function LastExplicit(ws: seq<Write>): Option<string>
    decreases |ws|
  {
    if |ws| == 0 then None
    else if ws[|ws| - 1].WriteRoleIntegration? then Some(ws[|ws| - 1].value)
    else LastExplicit(ws[..|ws| - 1])
  }

  /** Some write stored a non-empty `roles`. */
  predicate SomeRolesWritten(ws: seq<Write>) {
    exists k :: 0 <= k < |ws| && ws[k].WriteRoles? && |ws[k].roles| > 0
  }

  /** The roles after a run: the last `roles` write, else the initial roles. */
  function LastRoles(c: Component, ws: seq<Write>): seq<string>
    decreases |ws|
  {
    if |ws| == 0 then c.roles
    else if ws[|ws| - 1].WriteRoles? then ws[|ws| - 1].roles
    else LastRoles(c, ws[..|ws| - 1])
  }

  /** After any run of writes the roleIntegration is the last explicit value
      written; failing that, whatever was there at the start; failing that, the
      merge policy once some non-empty `roles` was written; and otherwise unset.
      The roles are those last written, and the Component is consistent. */
  lemma {:induction false} ApplyAllCharacterised(c: Component, ws: seq<Write>)
    ensures ApplyAll(c, ws).roles == LastRoles(c, ws)
    ensures ApplyAll(c, ws).roleIntegration ==
              if LastExplicit(ws).Some? then LastExplicit(ws)
              else if c.roleIntegration.Some? then c.roleIntegration
              else if SomeRolesWritten(ws) then Some(SbolRoleIntegrationMerge)
              else None
    ensures |ws| > 0 ==> Consistent(ApplyAll(c, ws))
    ensures Consistent(c) ==> Consistent(ApplyAll(c, ws))
    decreases |ws|
  {
    if |ws| > 0 {
      var init := ws[..|ws| - 1];
      var last := ws[|ws| - 1];
      ApplyAllCharacterised(c, init);
      if SomeRolesWritten(init) {
        var k :| 0 <= k < |init| && init[k].WriteRoles? && |init[k].roles| > 0;
        assert ws[k] == init[k];
      }
      if last.WriteRoles? && |last.roles| > 0 {
        assert SomeRolesWritten(ws) by {
          assert ws[|ws| - 1] == last;
        }
      }
      if SomeRolesWritten(ws) && !(last.WriteRoles? && |last.roles| > 0) {
        var k :| 0 <= k < |ws| && ws[k].WriteRoles? && |ws[k].roles| > 0;
        assert k < |init| && init[k] == ws[k];
      }
    }
  }

  /** Once set, the roleIntegration is never cleared by any later writes. */
  lemma {:induction false} RoleIntegrationNeverCleared(c: Component, ws: seq<Write>)
    requires c.roleIntegration.Some?
    ensures ApplyAll(c, ws).roleIntegration.Some?
  {
    ApplyAllCharacterised(c, ws);
  }
}
