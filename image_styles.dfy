/**
  The image style registry (image-styles.js): style 1 fills a macro close-up template
  with the user's prompt; styles 2 to 4 are marked "coming soon" and hand the prompt
  back unchanged. The key 0 stands for the "No Style" option, which is kept outside
  the registry and also hands the prompt back unchanged.
*/
module ImageStyles {
  import opened Wrappers
  import opened JsonValues

  /**
    What a style's `generatePrompt` does: fill the macro close-up template and serialize
    it, or return the user's prompt as it is (the "coming soon" styles).
  */
  datatype ImageTemplate = MacroCloseUp | EchoUserPrompt

  datatype ImageStyle = ImageStyle(
    name: string,
    emoji: string,
    description: string,
    previewStyle: string,
    comingSoon: bool,
    template: ImageTemplate)

  /** The display fields of the "No Style" option, which has no template. */
  datatype StyleDisplay = StyleDisplay(
    name: string,
    emoji: string,
    description: string,
    previewStyle: string)

  /**
    The registry: style 1 is live and fills the macro close-up template; every other
    style is "coming soon" and hands the user's prompt back.
  */
  function Registry(): (r: map<int, ImageStyle>)
    ensures r.Keys == {1, 2, 3, 4}
    ensures forall k | k in r :: r[k].comingSoon <==> k != 1
    ensures forall k | k in r :: r[k].template == (if r[k].comingSoon then EchoUserPrompt else MacroCloseUp)
  {
    map[
    1 := ImageStyle("Macro Close-up", "\U{1F52C}", "Extreme detail",
                    "background: linear-gradient(135deg, #2d5016, #4a7c23);", false, MacroCloseUp),
    2 := ImageStyle("Style 2", "\U{1F51C}", "Coming soon",
                    "background: linear-gradient(135deg, #e0e0e0, #9e9e9e);", true, EchoUserPrompt),
    3 := ImageStyle("Style 3", "\U{1F51C}", "Coming soon",
                    "background: linear-gradient(135deg, #e0e0e0, #9e9e9e);", true, EchoUserPrompt),
    4 := ImageStyle("Style 4", "\U{1F51C}", "Coming soon",
                    "background: linear-gradient(135deg, #e0e0e0, #9e9e9e);", true, EchoUserPrompt)
    ]
  }

  /** The key the UI uses for the "No Style" option. */
  const NoStyleKey: int := 0

  /** The "No Style" option the UI offers beside the registry; it is none of the registry's styles. */
  function NoStyle(): (d: StyleDisplay)
    ensures forall k | k in Registry() :: d.name != Registry()[k].name
  {
    StyleDisplay("No Style", "\U{2728}", "Use prompt as-is",
                 "background: linear-gradient(135deg, #0078d4, #106ebe);")
  }

  /** The instruction line in front of the serialized template. */
  const ImagePrefix: string := "Create an image:\n"

  /** The number of styles in the registry; the "No Style" option is not one of them. */
  function ImageStyleCount(): (n: nat)
    ensures n == 4
    ensures NoStyleKey !in Registry()
  {
    |Registry().Keys|
  }

  /**
    A style's `generatePrompt`: the macro close-up template filled with `subject` only,
    or `userPrompt` unchanged for the "coming soon" styles.
  */
  function GeneratePrompt(stringify: Stringify, t: ImageTemplate, subject: string, userPrompt: string): (r: string)
    ensures t == EchoUserPrompt ==> r == userPrompt
    ensures t == MacroCloseUp ==> ImagePrefix <= r && r[|ImagePrefix|..] == stringify(MacroCloseUpTemplate(subject))
  {
    match t
    case MacroCloseUp => ImagePrefix + stringify(MacroCloseUpTemplate(subject))
    case EchoUserPrompt => userPrompt
  }

  /**
    The prompt sent for style `k`: `userPrompt` unchanged for the "No Style" key, for a
    key the registry does not hold and for a "coming soon" style; otherwise the style's
    template filled with `userPrompt` as the subject.
  */
  function GenerateImagePrompt(stringify: Stringify, k: int, userPrompt: string): (r: string)
    ensures k == NoStyleKey ==> r == userPrompt
    ensures k !in Registry() || Registry()[k].comingSoon ==> r == userPrompt
    ensures k == 1 ==> r == ImagePrefix + stringify(MacroCloseUpTemplate(userPrompt))
  {
    if k == NoStyleKey then userPrompt
    else if k !in Registry() || Registry()[k].comingSoon then userPrompt
    else GeneratePrompt(stringify, Registry()[k].template, userPrompt, userPrompt)
  }

  /** Whether style `k` can be chosen: the "No Style" key, or a registry style that is not "coming soon". */
  function IsImageStyleAvailable(k: int): (b: bool)
    ensures b <==> k == NoStyleKey || k == 1
  {
    if k == NoStyleKey then true
    else k in Registry() && !Registry()[k].comingSoon
  }

  /** The registry keys are exactly 1 up to the style count; "No Style" comes in addition. */
  lemma RegistryKeysRunToCount(k: int)
    ensures k in Registry() <==> 1 <= k <= ImageStyleCount()
  {
  }

  /**
    Availability and generation agree: an unavailable key and the "No Style" key leave
    the prompt as it is, and any other available key puts the instruction line in front.
  */
  lemma AvailabilityMatchesGeneration(stringify: Stringify, k: int, userPrompt: string)
    ensures !IsImageStyleAvailable(k) || k == NoStyleKey ==> GenerateImagePrompt(stringify, k, userPrompt) == userPrompt
    ensures IsImageStyleAvailable(k) && k != NoStyleKey ==> ImagePrefix <= GenerateImagePrompt(stringify, k, userPrompt)
  {
  }

  /** The "coming soon" styles hand the prompt back unchanged. */
  lemma ComingSoonPassthrough(stringify: Stringify, userPrompt: string)
    ensures Registry()[2].comingSoon && Registry()[3].comingSoon && Registry()[4].comingSoon
    ensures GenerateImagePrompt(stringify, 2, userPrompt) == userPrompt
    ensures GenerateImagePrompt(stringify, 3, userPrompt) == userPrompt
    ensures GenerateImagePrompt(stringify, 4, userPrompt) == userPrompt
  {
  }

  /**
    The live style reads only its subject: the user prompt passed beside it makes no
    difference, and generation passes the user prompt as that subject.
  */
  lemma LiveStyleIgnoresUserPrompt(stringify: Stringify, subject: string, userPrompt1: string, userPrompt2: string)
    ensures GeneratePrompt(stringify, Registry()[1].template, subject, userPrompt1)
         == GeneratePrompt(stringify, Registry()[1].template, subject, userPrompt2)
    ensures GenerateImagePrompt(stringify, 1, subject) == GeneratePrompt(stringify, Registry()[1].template, subject, userPrompt1)
  {
  }

  /**
    The macro close-up template is constant apart from its subject leaf: writing
    `subject2` over the subject of the template filled with `subject1` gives the
    template filled with `subject2`.
  */
  lemma MacroOnlySubjectVaries(subject1: string, subject2: string)
    ensures Put(MacroCloseUpTemplate(subject1), ["subject", "type"], JStr(subject2))
         == MacroCloseUpTemplate(subject2)
  {
    PutAmong(MacroLead, "subject", MacroSubject(subject1), MacroTrail, ["type"], JStr(subject2));
    assert ["subject"] + ["type"] == ["subject", "type"];
    MacroSubjectVaries(subject1, subject2);
  }

  lemma MacroSubjectVaries(subject1: string, subject2: string)
    ensures Put(MacroSubject(subject1), ["type"], JStr(subject2)) == MacroSubject(subject2)
  {
    var ms := MacroSubject(subject1).members;
    PutUnder(ms, 0, [], JStr(subject2));
    assert [ms[0].key] + [] == ["type"];
    assert ms[0 := Member("type", JStr(subject2))] == MacroSubject(subject2).members;
  }

  /**
    Given a serializer that tells apart values differing in one string leaf, the
    prompt for a given key determines the user prompt it was generated from.
  */
  lemma PromptDeterminesUserPrompt(stringify: Stringify, k: int, userPrompt1: string, userPrompt2: string)
    requires SeparatesStringLeaves(stringify)
    requires GenerateImagePrompt(stringify, k, userPrompt1) == GenerateImagePrompt(stringify, k, userPrompt2)
    ensures userPrompt1 == userPrompt2
  {
    if k == 1 {
      var r1 := GenerateImagePrompt(stringify, k, userPrompt1);
      var r2 := GenerateImagePrompt(stringify, k, userPrompt2);
      assert r1[|ImagePrefix|..] == stringify(MacroCloseUpTemplate(userPrompt1));
      assert r2[|ImagePrefix|..] == stringify(MacroCloseUpTemplate(userPrompt2));
      MacroTextDeterminesSubject(stringify, userPrompt1, userPrompt2);
    }
  }

  /** The serialized template determines the subject that was filled in. */
  lemma MacroTextDeterminesSubject(stringify: Stringify, subject1: string, subject2: string)
    requires SeparatesStringLeaves(stringify)
    requires stringify(MacroCloseUpTemplate(subject1)) == stringify(MacroCloseUpTemplate(subject2))
    ensures subject1 == subject2
  {
    MacroOnlySubjectVaries(subject1, subject2);
    SeparatedLeaf(stringify, MacroCloseUpTemplate(subject1), ["subject", "type"], subject1, subject2);
  }

  function MacroCloseUpTemplate(subject: string): (r: Json)
    ensures Get(r, ["subject", "type"]) == Some(JStr(subject))
  {
    var t := JObj(MacroLead + [Member("subject", MacroSubject(subject))] + MacroTrail);
    GetAmong(MacroLead, "subject", MacroSubject(subject), MacroTrail, ["type"]);
    assert ["subject"] + ["type"] == ["subject", "type"];
    t
  }

  /** The members before `subject`, in the order the source writes them. */
  const MacroLead: seq<Member> :=
    [
      Member("task_type", JStr("generation")),
      Member("category", JStr("close_up_photography")),
      Member("style_id", JStr("merged_close_up_macro_immersive")),
      Member("intent", MacroIntent),
      Member("scene", MacroScene)
    ]

  /** The members after `subject`, in the order the source writes them. */
  const MacroTrail: seq<Member> :=
    [
      Member("camera", MacroCamera),
      Member("composition", MacroComposition),
      Member("lighting", MacroLighting),
      Member("materials_and_particles", MacroMaterialsAndParticles),
      Member("color", MacroColor),
      Member("mood", MacroMood),
      Member("constraints", MacroConstraints),
      Member("output", MacroOutput)
    ]

  /** The `subject` member of the template, where the caller's subject goes. */
  function MacroSubject(subject: string): (r: Json)
    ensures Get(r, ["type"]) == Some(JStr(subject))
  {
    var t := JObj([
      Member("type", JStr(subject)),
      Member("rendering_goal", JStr("hyperrealistic close-up with readable structure and material behavior")),
      Member("must_include_attributes", MacroSubjectMustIncludeAttributes)
    ]);
    GetUnder(t.members, 0, []);
    t
  }

  const MacroSubjectMustIncludeAttributes: Json :=
    JArr([
      JStr("fine micro-texture (papery layers OR micro-bubbles OR metallic fragments) is visible and sharp where intended"),
      JStr("clear silhouette / primary form remains recognizable"),
      JStr("no heavy stylization; realism first")
    ])

  const MacroIntent: Json :=
    JObj([
      Member("primary", JStr("produce an extreme close-up / macro-forward image with high tactile detail, cinematic realism, and disciplined composition")),
      Member("secondary", JStr("blend translucent micro-texture study, frozen particulate energy, and immersive underwater barrel perspective into one coherent close-up style"))
    ])

  const MacroScene: Json :=
    JObj([
      Member("type", JStr("macro_immersive_environment")),
      Member("environment_notes", JArr([
        JStr("the image should feel physically close to the subject matter (macro-forward)"),
        JStr("even if the subject is large-scale (e.g., wave barrel + surfer), the camera is positioned as if inches away from critical textures (foam, micro-bubbles, water skin, surface detail)"),
        JStr("background elements are present only as context and remain subordinate to close-up texture readability")
      ]))
    ])

  const MacroCamera: Json :=
    JObj([
      Member("capture_style", JStr("macro_forward_realism")),
      Member("lens_profile", JObj([
        Member("primary_lens_mm", JNum(90, 0)),
        Member("secondary_lens_mm", JNum(135, 0)),
        Member("context_lens_mm", JNum(24, 0)),
        Member("note", JStr("simulate a macro-forward look even when using wide context perspective by placing the camera extremely close to foreground textures"))
      ])),
      Member("aperture_strategy", JObj([
        Member("default", JStr("f/8")),
        Member("variant", JStr("f/2.8 for particle isolation")),
        Member("guidance", JStr("prioritize close-up texture readability; shallow depth of field is allowed only when it improves isolation without losing essential structure"))
      ])),
      Member("focus", JObj([
        Member("strategy", JStr("flat_field_when_possible")),
        Member("priority_plane", JStr("foreground texture plane (foam / papery layers / particles)")),
        Member("sharpness", JStr("high micro-contrast on key textures")),
        Member("vignetting", JStr("low")),
        Member("distortion", JStr("minimal (avoid extreme fisheye)"))
      ])),
      Member("shutter_simulation", JObj([
        Member("mode", JStr("fast")),
        Member("purpose", JStr("freeze sparks/particles/micro-droplets while allowing subtle controlled streaking where physically plausible"))
      ])),
      Member("perspective", JObj([
        Member("type", JStr("near_parallel_macro_with_immersive_pov")),
        Member("notes", JArr([
          JStr("near-parallel macro feel for texture studies"),
          JStr("immersive POV for underwater barrel scenes"),
          JStr("world beyond may be softly warped by translucent media (water/foam), but keep the primary subject readable")
        ]))
      ]))
    ])

  const MacroComposition: Json :=
    JObj([
      Member("framing", JObj([
        Member("priority", JStr("extreme_close_up")),
        Member("rule", JStr("the frame should be dominated by texture and surface structure")),
        Member("cropping", JStr("allowed but never at the expense of the main form being understandable"))
      ])),
      Member("geometry", JObj([
        Member("primary", JStr("stacked_S_curve")),
        Member("secondary", JStr("tunnel_opening_guides_eye_outward")),
        Member("notes", JArr([
          JStr("use S-curve layering when depicting layered/translucent surfaces"),
          JStr("use barrel/tunnel geometry when depicting wave scenes"),
          JStr("use directional streak vectors when depicting sparks")
        ]))
      ])),
      Member("subject_placement", JObj([
        Member("layout", JStr("single_primary_subject_with_context")),
        Member("alignment", JStr("center_or_rule_of_thirds")),
        Member("safe_padding_ratio", JNum(12, 2))
      ])),
      Member("background", JObj([
        Member("type", JStr("dark_cool_shadows_or_translucent_media")),
        Member("behavior", JStr("non-distracting, supports subject isolation"))
      ]))
    ])

  const MacroLighting: Json :=
    JObj([
      Member("setup", JStr("soft_studio_meets_natural_diffused")),
      Member("key_principles", JArr([
        JStr("diffused light that reveals micro-structure"),
        JStr("controlled highlights (no blowouts)"),
        JStr("deep cool shadow field for contrast when particles are present"),
        JStr("subtle caustic-like light effects allowed in underwater scenes if realistic")
      ])),
      Member("key_light", JObj([
        Member("position", JStr("top_front_right")),
        Member("intensity", JStr("medium")),
        Member("diffusion", JStr("high"))
      ])),
      Member("fill_light", JObj([
        Member("position", JStr("front")),
        Member("intensity", JStr("low"))
      ])),
      Member("highlight_control", JObj([
        Member("rule", JStr("retain detail in bright sparks/foam reflections")),
        Member("avoid", JStr("overexposure, cartoon glow"))
      ])),
      Member("shadow_character", JObj([
        Member("tone", JStr("cool")),
        Member("depth", JStr("medium_to_deep")),
        Member("falloff", JStr("soft"))
      ]))
    ])

  const MacroMaterialsAndParticles: Json :=
    JObj([
      Member("translucent_surface_study", JObj([
        Member("enabled", JBool(true)),
        Member("targets", JArr([
          JStr("papery layers"),
          JStr("translucent membranes"),
          JStr("thin water skin"),
          JStr("foam sheets")
        ])),
        Member("detail", JArr([JStr("fine ridges"), JStr("layer edges"), JStr("subtle curvature"), JStr("micro-bubble clusters")]))
      ])),
      Member("spark_particle_study", JObj([
        Member("enabled", JBool(true)),
        Member("targets", JArr([JStr("orange sparks"), JStr("glowing particles"), JStr("metallic fragments")])),
        Member("behavior", JObj([
          Member("freeze", JStr("primary")),
          Member("streaking", JStr("subtle and physically plausible")),
          Member("glow", JStr("contained realistic"))
        ]))
      ])),
      Member("underwater_media", JObj([
        Member("enabled", JBool(true)),
        Member("features", JArr([
          JStr("micro-bubbles in foreground"),
          JStr("translucent foam wall partially occluding"),
          JStr("soft optical warping through water")
        ]))
      ]))
    ])

  const MacroColor: Json :=
    JObj([
      Member("palette_strategy", JStr("selective_color_realism")),
      Member("earth_neutrals", JObj([
        Member("enabled", JBool(true)),
        Member("usage", JStr("translucent layer studies")),
        Member("tone", JStr("gentle warm neutrals")),
        Member("saturation", JStr("low"))
      ])),
      Member("sparks_contrast", JObj([
        Member("enabled", JBool(true)),
        Member("primary", JStr("hot_orange")),
        Member("supporting_shadows", JStr("deep_cool_blues")),
        Member("saturation", JStr("high only on sparks"))
      ])),
      Member("underwater", JObj([
        Member("enabled", JBool(true)),
        Member("primary", JStr("turquoise")),
        Member("secondary", JStr("white_foam")),
        Member("shadow_tone", JStr("cool_deep"))
      ])),
      Member("global_rules", JObj([
        Member("avoid", JArr([JStr("neon gradients"), JStr("overly stylized color grading")])),
        Member("white_balance", JStr("neutral_to_warm (scene dependent)"))
      ]))
    ])

  const MacroMood: Json :=
    JObj([
      Member("combined_mood", JStr("submerged quiet + restrained impact + anatomical study")),
      Member("keywords", JArr([
        JStr("quiet"),
        JStr("precise"),
        JStr("immersive"),
        JStr("tactile"),
        JStr("dynamic_but_restrained"),
        JStr("observational_realism")
      ]))
    ])

  const MacroConstraints: Json :=
    JObj([
      Member("avoid", JArr([
        JStr("cartoon or illustrative look"),
        JStr("heavy stylization"),
        JStr("overexposed highlights"),
        JStr("busy background elements"),
        JStr("strong vignetting"),
        JStr("extreme fisheye distortion"),
        JStr("CGI water that looks too clean or plastic"),
        JStr("smoky haze filling the whole frame")
      ])),
      Member("ensure", JArr([
        JStr("close-up dominance: textures read first, context second"),
        JStr("sharp micro-detail on key planes (foam/bubbles/ridges/particles)"),
        JStr("recognizable primary form/silhouette"),
        JStr("controlled highlights with preserved detail"),
        JStr("cool shadow field supports contrast when sparks/particles appear"),
        JStr("immersive perspective when underwater barrel context is used")
      ]))
    ])

  const MacroOutput: Json :=
    JObj([
      Member("format", JStr("png")),
      Member("transparent_background", JBool(true)),
      Member("note", JStr("if transparency is used, ensure shadows/highlights are baked into pixels and still readable on transparent canvas")),
      Member("recommended_resolution", JStr("2048x2048")),
      Member("aspect_ratio", JStr("1:1")),
      Member("quality", JStr("high")),
      Member("color_profile", JStr("sRGB"))
    ])

}
