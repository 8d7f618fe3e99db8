/** An Android build target: an API level and an ABI name, with the platform
    name and the two GNU-style target prefixes derived from them. */
module AndroidTarget {
  import opened Wrappers
  import opened Strings

  const Armv7: string := "armv7"
  const Armv8: string := "armv8"
  const X86: string := "x86"
  const X86_64: string := "x86_64"

  /** A value type: two targets are equal exactly when api and arch are. */
  datatype AndroidInfo = AndroidInfo(api: int, arch: string) {

    /** "android<api>_<arch>", without a separator before the api. */
    function PlatformName(): (r: string)
      ensures StartsWith(r, "android")
      ensures EndsWith(r, "_" + arch)
    {
      "android" + IntToString(api) + "_" + arch
    }

    /** The clang target prefix. */
    function TargetPrefix(): (r: string)
      ensures EndsWith(r, "eabi") <==> arch == Armv7
    {
      var stem :=
        if arch == Armv8 then "aarch64"
        else if arch == Armv7 then "armv7a"
        else if arch == X86 then "i686"
        else X86_64;
      var r := stem + "-linux-android" + (if arch == Armv7 then "eabi" else "");
      assert r[|r| - 4..] == if arch == Armv7 then "eabi" else "roid";
      r
    }

    /** The binutils tool prefix: the target prefix with "arm" as the ARMv7 stem. */
    function ToolsPrefix(): (r: string)
      ensures EndsWith(r, "eabi") <==> arch == Armv7
    {
      var stem :=
        if arch == Armv8 then "aarch64"
        else if arch == Armv7 then "arm"
        else if arch == X86 then "i686"
        else X86_64;
      var r := stem + "-linux-android" + (if arch == Armv7 then "eabi" else "");
      assert r[|r| - 4..] == if arch == Armv7 then "eabi" else "roid";
      r
    }
  }

  /** Reads a platform name back: "android", a 32-bit decimal api, '_', the arch. */
  function DecodePlatformName(s: string): (r: Option<AndroidInfo>)
    ensures r.Some? ==> IntMin <= r.value.api <= IntMax
  {
    if !StartsWith(s, "android") then None
    else
      var rest := s[7..];
      var i := IndexOf(rest, "_");
      if i == -1 then None
      else
        match ParseInt(rest[..i])
        case None => None
        case Some(api) => Some(AndroidInfo(api, rest[i + 1..]))
  }

  /** The platform name of a target with a 32-bit api decodes back to it. */
  lemma DecodePlatformNameOfPlatformName(info: AndroidInfo)
    requires IntMin <= info.api <= IntMax
    ensures DecodePlatformName(info.PlatformName()) == Some(info)
  {
    var n := IntToString(info.api);
    var s := info.PlatformName();
    var rest := s[7..];
    assert rest == n + "_" + info.arch;
    IntToStringChars(info.api);
    assert OccursAt(rest, "_", |n|);
    forall j | 0 <= j < |n|
      ensures !OccursAt(rest, "_", j)
    {
      assert rest[j] == n[j] && n[j] in n;
    }
    assert IndexOf(rest, "_") == |n|;
    assert rest[..|n|] == n;
    ParseIntOfIntToString(info.api);
    assert rest[|n| + 1..] == info.arch;
  }

  /** Distinct targets (with 32-bit apis) have distinct platform names. */
  lemma PlatformNameInjective(a: AndroidInfo, b: AndroidInfo)
    requires IntMin <= a.api <= IntMax && IntMin <= b.api <= IntMax
    requires a.PlatformName() == b.PlatformName()
    ensures a == b
  {
    DecodePlatformNameOfPlatformName(a);
    DecodePlatformNameOfPlatformName(b);
  }

  /** The named ABIs and their target prefixes. */
  lemma TargetPrefixTable(api: int)
    ensures AndroidInfo(api, Armv8).TargetPrefix() == "aarch64-linux-android"
    ensures AndroidInfo(api, Armv7).TargetPrefix() == "armv7a-linux-androideabi"
    ensures AndroidInfo(api, X86).TargetPrefix() == "i686-linux-android"
  {
    Armv8Prefix(api);
    Armv7Prefix(api);
    X86Prefix(api);
  }

  lemma Armv8Prefix(api: int)
    ensures AndroidInfo(api, Armv8).TargetPrefix() == "aarch64-linux-android"
  {
    assert AndroidInfo(api, Armv8).TargetPrefix() == "aarch64" + "-linux-android" + "";
  }

  lemma Armv7Prefix(api: int)
    ensures AndroidInfo(api, Armv7).TargetPrefix() == "armv7a-linux-androideabi"
  {
    assert AndroidInfo(api, Armv7).TargetPrefix() == "armv7a" + "-linux-android" + "eabi";
  }

  lemma X86Prefix(api: int)
    ensures AndroidInfo(api, X86).TargetPrefix() == "i686-linux-android"
  {
    assert AndroidInfo(api, X86).TargetPrefix() == "i686" + "-linux-android" + "";
  }

  /** Any arch outside armv8, armv7 and x86 gets the x86_64 prefixes. */
  lemma UnknownArchFallsThrough(info: AndroidInfo)
    requires info.arch != Armv8 && info.arch != Armv7 && info.arch != X86
    ensures info.TargetPrefix() == "x86_64-linux-android"
    ensures info.ToolsPrefix() == "x86_64-linux-android"
  {
  }

  /** The two prefixes agree except on armv7, where only the stem differs. */
  lemma ToolsPrefixVersusTargetPrefix(info: AndroidInfo)
    ensures info.arch != Armv7 ==> info.ToolsPrefix() == info.TargetPrefix()
    ensures info.arch == Armv7 ==> info.ToolsPrefix() != info.TargetPrefix()
    ensures info.arch == Armv7 ==>
      "armv7a" + info.ToolsPrefix()[3..] == info.TargetPrefix()
  {
  }
}
