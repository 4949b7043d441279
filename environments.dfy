/** The deployment environment names of config/environments.go. */
module Environments {
  import opened GoTypes

  const EnvironmentProduction: GoString := "production"
  const EnvironmentStaging: GoString := "staging"
  const EnvironmentDevelopment: GoString := "development"
  const EnvironmentPRPreview: GoString := "pr-preview"
  const EnvironmentTesting: GoString := "testing"

  /** Every valid environment name, in the order the source lists them. */
  function ValidEnvironments(): (r: seq<GoString>)
    ensures |r| == 5
    ensures r[0] == EnvironmentProduction && r[1] == EnvironmentStaging && r[2] == EnvironmentDevelopment
    ensures r[3] == EnvironmentPRPreview && r[4] == EnvironmentTesting
    ensures forall i, j :: 0 <= i < j < |r| ==> r[i] != r[j]
  {
    [EnvironmentProduction, EnvironmentStaging, EnvironmentDevelopment, EnvironmentPRPreview, EnvironmentTesting]
  }

  /** The linear search with early return: true as soon as some name equals `env`. */
  function Occurs(names: seq<GoString>, env: GoString): (found: bool)
    ensures found <==> env in names
  {
    if names == [] then false
    else if names[0] == env then true
    else
      assert names == [names[0]] + names[1..];
      Occurs(names[1..], env)
  }

  function IsValidEnvironment(env: GoString): (ok: bool)
    ensures ok <==> env in ValidEnvironments()
  {
    Occurs(ValidEnvironments(), env)
  }

  /** Membership is exact byte equality: the empty name and other spellings are rejected. */
  lemma ValidityIsExactMatch()
    ensures !IsValidEnvironment("")
    ensures !IsValidEnvironment("Production")
    ensures !IsValidEnvironment("production ")
    ensures IsValidEnvironment(EnvironmentProduction)
  {
  }

  /** A valid name is one of the five constants, and each of them is short. */
  lemma ValidEnvironmentIsShort(env: GoString)
    requires IsValidEnvironment(env)
    ensures |env| <= 11
  {
  }
}
