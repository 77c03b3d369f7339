/**
  The icon style registry (icon-styles.js): four styles under the integer keys 1 to 4,
  each with the metadata the UI shows and a template that places the caller's subject
  into a fixed JSON object. `GenerateIconPrompt` serializes the filled template behind
  the instruction line "Create an image:\n", or falls back to a one-sentence prompt
  for a key the registry does not hold.
*/
module IconStyles {
  import opened Wrappers
  import opened JsonValues

  /** The template a style fills in; each is one `generatePrompt` function of the source. */
  datatype IconTemplate = SpotIllustration | Clay3D | PhotoRealism | IsometricFlat

  datatype IconStyle = IconStyle(
    name: string,
    emoji: string,
    description: string,
    previewStyle: string,
    template: IconTemplate)

  /** What the UI is given about a style: its display fields, never its template. */
  datatype StyleMetadata = StyleMetadata(
    name: string,
    emoji: string,
    description: string,
    previewStyle: string)

  /** The registry: four styles under the keys 1 to 4, each with a template of its own. */
  function Registry(): (r: map<int, IconStyle>)
    ensures r.Keys == {1, 2, 3, 4}
    ensures forall k1, k2 | k1 in r && k2 in r && k1 != k2 :: r[k1].template != r[k2].template
  {
    map[
    1 := IconStyle("Spot Illustration", "\U{270F}\U{FE0F}", "Flat 2D geometric",
                   "background: #FFFFFF; border: 2px solid #000B39;", SpotIllustration),
    2 := IconStyle("3D Clay", "\U{1F3FA}", "Dark blue matte",
                   "background: linear-gradient(135deg, #000F47, #001a5c);", Clay3D),
    3 := IconStyle("Photo Realism", "\U{1F4F7}", "Hyperrealistic",
                   "background: linear-gradient(135deg, #f5f5f5, #e0e0e0);", PhotoRealism),
    4 := IconStyle("Isometric Flat", "\U{1F537}", "Corporate geometric",
                   "background: linear-gradient(135deg, #000F47, #163A78);", IsometricFlat)
    ]
  }

  /** The instruction line in front of every serialized template. */
  const ImagePrefix: string := "Create an image:\n"

  /** The prompt for a key the registry does not hold. */
  function FallbackPrompt(subject: string): (r: string)
    ensures |r| == |subject| + 53
    ensures r[..8] == "Icon of " && r[8..8 + |subject|] == subject
  {
    "Icon of " + subject + ", clean simple design, centered, high quality"
  }

  /** The number of styles in the registry. */
  function StyleCount(): (n: nat)
    ensures n == 4
  {
    |Registry().Keys|
  }

  /** Whether the registry holds the key `k` as its own entry. */
  function IsValidStyle(k: int): (b: bool)
    ensures b <==> 1 <= k <= 4
  {
    k in Registry()
  }

  /** The display fields of the style under `k`, or None for a key the registry does not hold. */
  function GetStyleMetadata(k: int): (r: Option<StyleMetadata>)
    ensures r.Some? <==> IsValidStyle(k)
    ensures r.Some? ==>
      && r.value.name == Registry()[k].name
      && r.value.emoji == Registry()[k].emoji
      && r.value.description == Registry()[k].description
      && r.value.previewStyle == Registry()[k].previewStyle
  {
    if k !in Registry() then None
    else
      var style := Registry()[k];
      Some(StyleMetadata(style.name, style.emoji, style.description, style.previewStyle))
  }

  /**
    The prompt for style `k` and `subject`: the serialized template behind the
    instruction line, or the fallback sentence for a key the registry does not hold.
    The two cases are told apart by the instruction line alone.
  */
  function GenerateIconPrompt(stringify: Stringify, k: int, subject: string): (r: string)
    ensures ImagePrefix <= r <==> IsValidStyle(k)
    ensures !IsValidStyle(k) ==> r == "Icon of " + subject + ", clean simple design, centered, high quality"
    ensures IsValidStyle(k) ==> r == ImagePrefix + stringify(Render(Registry()[k].template, subject))
  {
    if k !in Registry() then
      var fallback := FallbackPrompt(subject);
      assert fallback[0] != ImagePrefix[0];
      fallback
    else
      ImagePrefix + stringify(Render(Registry()[k].template, subject))
  }

  /** The template of style `t` filled with `subject` (the style's `generatePrompt`). */
  function Render(t: IconTemplate, subject: string): (r: Json)
    ensures Get(r, SubjectPath(t)) == Some(JStr(subject))
  {
    match t
    case SpotIllustration => SpotIllustrationTemplate(subject)
    case Clay3D => Clay3DTemplate(subject)
    case PhotoRealism => PhotoRealismTemplate(subject)
    case IsometricFlat => IsometricFlatTemplate(subject)
  }

  /** Where each template puts the subject. */
  function SubjectPath(t: IconTemplate): Path
  {
    match t
    case SpotIllustration => ["subject", "type"]
    case Clay3D => ["object"]
    case PhotoRealism => ["subject", "type"]
    case IsometricFlat => ["object"]
  }

  /** The valid keys are exactly 1 up to the style count, so a UI listing keys 1..count shows every style. */
  lemma ValidKeysRunToCount(k: int)
    ensures IsValidStyle(k) <==> 1 <= k <= StyleCount()
    ensures IsValidStyle(k) <==> GetStyleMetadata(k).Some?
  {
  }

  /**
    Each template is constant apart from its subject leaf: writing `subject2` over the
    subject of the template filled with `subject1` gives the template filled with `subject2`.
  */
  lemma OnlySubjectVaries(t: IconTemplate, subject1: string, subject2: string)
    ensures Put(Render(t, subject1), SubjectPath(t), JStr(subject2)) == Render(t, subject2)
  {
    match t
    case SpotIllustration => SpotOnlySubjectVaries(subject1, subject2);
    case Clay3D => ClayOnlySubjectVaries(subject1, subject2);
    case PhotoRealism => PhotoOnlySubjectVaries(subject1, subject2);
    case IsometricFlat => IsometricOnlySubjectVaries(subject1, subject2);
  }

  lemma SpotOnlySubjectVaries(subject1: string, subject2: string)
    ensures Put(SpotIllustrationTemplate(subject1), ["subject", "type"], JStr(subject2))
         == SpotIllustrationTemplate(subject2)
  {
    PutAmong(SpotLead, "subject", SpotSubject(subject1), SpotTrail, ["type"], JStr(subject2));
    assert ["subject"] + ["type"] == ["subject", "type"];
    SpotSubjectVaries(subject1, subject2);
  }

  lemma SpotSubjectVaries(subject1: string, subject2: string)
    ensures Put(SpotSubject(subject1), ["type"], JStr(subject2)) == SpotSubject(subject2)
  {
    var ms := SpotSubject(subject1).members;
    PutUnder(ms, 0, [], JStr(subject2));
    assert [ms[0].key] + [] == ["type"];
    assert ms[0 := Member("type", JStr(subject2))] == SpotSubject(subject2).members;
  }

  lemma ClayOnlySubjectVaries(subject1: string, subject2: string)
    ensures Put(Clay3DTemplate(subject1), ["object"], JStr(subject2)) == Clay3DTemplate(subject2)
  {
    PutUnder(Clay3DTemplate(subject1).members, 0, [], JStr(subject2));
  }

  lemma PhotoOnlySubjectVaries(subject1: string, subject2: string)
    ensures Put(PhotoRealismTemplate(subject1), ["subject", "type"], JStr(subject2))
         == PhotoRealismTemplate(subject2)
  {
    PutAmong(PhotoLead, "subject", PhotoSubject(subject1), PhotoTrail, ["type"], JStr(subject2));
    assert ["subject"] + ["type"] == ["subject", "type"];
    PhotoSubjectVaries(subject1, subject2);
  }

  lemma PhotoSubjectVaries(subject1: string, subject2: string)
    ensures Put(PhotoSubject(subject1), ["type"], JStr(subject2)) == PhotoSubject(subject2)
  {
    var ms := PhotoSubject(subject1).members;
    PutUnder(ms, 0, [], JStr(subject2));
    assert [ms[0].key] + [] == ["type"];
    assert ms[0 := Member("type", JStr(subject2))] == PhotoSubject(subject2).members;
  }

  lemma IsometricOnlySubjectVaries(subject1: string, subject2: string)
    ensures Put(IsometricFlatTemplate(subject1), ["object"], JStr(subject2)) == IsometricFlatTemplate(subject2)
  {
    PutUnder(IsometricFlatTemplate(subject1).members, 0, [], JStr(subject2));
  }

  /**
    Where the styles of the registry put the subject: styles 1 and 3 at `subject.type`,
    styles 2 and 4 at the top-level `object`, which style 1 holds as a constant.
  */
  lemma RegistrySubjectPlacement(subject: string)
    ensures Get(Render(Registry()[1].template, subject), ["subject", "type"]) == Some(JStr(subject))
    ensures Get(Render(Registry()[2].template, subject), ["object"]) == Some(JStr(subject))
    ensures Get(Render(Registry()[3].template, subject), ["subject", "type"]) == Some(JStr(subject))
    ensures Get(Render(Registry()[4].template, subject), ["object"]) == Some(JStr(subject))
    ensures Get(Render(Registry()[1].template, subject), ["object"]) == Some(JStr("spot_illustration"))
  {
    assert Registry()[1].template == SpotIllustration && Registry()[2].template == Clay3D;
    assert Registry()[3].template == PhotoRealism && Registry()[4].template == IsometricFlat;
  }

  /**
    Given a serializer that tells apart values differing in one string leaf, the
    prompt for a given key determines the subject it was generated from, in both branches.
  */
  lemma PromptDeterminesSubject(stringify: Stringify, k: int, subject1: string, subject2: string)
    requires SeparatesStringLeaves(stringify)
    requires GenerateIconPrompt(stringify, k, subject1) == GenerateIconPrompt(stringify, k, subject2)
    ensures subject1 == subject2
  {
    var r1 := GenerateIconPrompt(stringify, k, subject1);
    var r2 := GenerateIconPrompt(stringify, k, subject2);
    if k in Registry() {
      var t := Registry()[k].template;
      var j := Render(t, subject1);
      assert r1[|ImagePrefix|..] == stringify(j);
      assert r2[|ImagePrefix|..] == stringify(Render(t, subject2));
      OnlySubjectVaries(t, subject1, subject2);
      SeparatedLeaf(stringify, j, SubjectPath(t), subject1, subject2);
    } else {
      assert r1[8..8 + |subject1|] == subject1;
      assert r2[8..8 + |subject2|] == subject2;
    }
  }

  function SpotIllustrationTemplate(subject: string): (r: Json)
    ensures Get(r, ["subject", "type"]) == Some(JStr(subject))
    ensures Get(r, ["object"]) == Some(JStr("spot_illustration"))
  {
    var t := JObj(SpotLead + [Member("subject", SpotSubject(subject))] + SpotTrail);
    GetAmong(SpotLead, "subject", SpotSubject(subject), SpotTrail, ["type"]);
    assert ["subject"] + ["type"] == ["subject", "type"];
    GetUnder(t.members, 0, []);
    t
  }

  /** The members before `subject`, in the order the source writes them. */
  const SpotLead: seq<Member> :=
    [
      Member("object", JStr("spot_illustration")),
      Member("task_type", JStr("generation")),
      Member("priority", SpotPriority)
    ]

  /** The members after `subject`, in the order the source writes them. */
  const SpotTrail: seq<Member> :=
    [
      Member("parameters", SpotParameters),
      Member("constraints", SpotConstraints),
      Member("output_specs", SpotOutputSpecs)
    ]

  /** The `subject` member of the template, where the caller's subject goes. */
  function SpotSubject(subject: string): (r: Json)
    ensures Get(r, ["type"]) == Some(JStr(subject))
  {
    var t := JObj([
      Member("type", JStr(subject)),
      Member("description", JStr("simplified geometric representation"))
    ]);
    GetUnder(t.members, 0, []);
    t
  }

  const SpotPriority: Json :=
    JObj([
      Member("primary", JStr("flat 2D illustration in the Oliver Wyman brand style")),
      Member("secondary", JStr("strict separation between outline-only and fill-only elements"))
    ])

  const SpotParameters: Json :=
    JObj([
      Member("structure_rules", JObj([
        Member("outline_elements", JObj([
          Member("usage", JStr("outline_only")),
          Member("line_color", JStr("#000B39")),
          Member("line_weight", JStr("thin")),
          Member("no_fill", JBool(true))
        ])),
        Member("filled_elements", JObj([
          Member("usage", JStr("fill_only")),
          Member("fill_colors", JArr([JStr("#000B39"), JStr("#FFBF00"), JStr("#C4C4C4")])),
          Member("no_outline", JBool(true))
        ])),
        Member("rule_description", JStr("each element must be either pure outline OR pure fill; never combine both in one shape"))
      ])),
      Member("illustration_style", JObj([
        Member("geometry", JStr("simplified_geometric")),
        Member("dimensionality", JStr("flat_2D")),
        Member("avoid_detail", JBool(true))
      ])),
      Member("color_usage", JObj([
        Member("primary", JStr("#000B39")),
        Member("highlight", JStr("#FFBF00")),
        Member("contrast", JStr("#C4C4C4")),
        Member("exclude", JArr([JStr("Sky Blue"), JStr("#FFFFFF in objects")]))
      ])),
      Member("background", JObj([
        Member("type", JStr("transparent"))
      ]))
    ])

  const SpotConstraints: Json :=
    JObj([
      Member("avoid", JArr([
        JStr("mixing fill and outline in a single shape"),
        JStr("3D shading"),
        JStr("gradients"),
        JStr("textures"),
        JStr("organic curves"),
        JStr("realistic detail"),
        JStr("Sky Blue")
      ])),
      Member("ensure", JArr([
        JStr("all outlines are #000B39 only"),
        JStr("all filled shapes have NO outline"),
        JStr("clean geometric reduction"),
        JStr("balanced composition")
      ]))
    ])

  const SpotOutputSpecs: Json :=
    JObj([
      Member("file_type", JStr("png")),
      Member("quality", JStr("high")),
      Member("transparent_background", JBool(true))
    ])

  function Clay3DTemplate(subject: string): (r: Json)
    ensures Get(r, ["object"]) == Some(JStr(subject))
  {
    var t := JObj([
      Member("object", JStr(subject)),
      Member("task_type", JStr("generation")),
      Member("priority", ClayPriority),
      Member("material", ClayMaterial),
      Member("subject", ClaySubject),
      Member("environment", ClayEnvironment),
      Member("style", ClayStyle),
      Member("technical", ClayTechnical),
      Member("constraints", ClayConstraints),
      Member("output_specs", ClayOutputSpecs)
    ]);
    GetUnder(t.members, 0, []);
    t
  }

  const ClayPriority: Json :=
    JObj([
      Member("primary", JStr("create a photorealistic 3D render of the object with no texture")),
      Member("secondary", JStr("preserve the object's silhouette and physical accuracy"))
    ])

  const ClayMaterial: Json :=
    JObj([
      Member("type", JStr("untextured_3d_clay")),
      Member("properties", JObj([
        Member("color", JStr("#000F47")),
        Member("finish", JStr("matte")),
        Member("surface", JStr("clean and uniform with no visible texture")),
        Member("details", JStr("subtle highlights and soft shading to define the object's shape"))
      ]))
    ])

  const ClaySubject: Json :=
    JObj([
      Member("description", JStr("the object rendered as an untextured dark-blue clay-style 3D model")),
      Member("attributes", JObj([
        Member("form", JStr("precise and accurate to the object's silhouette")),
        Member("texture", JStr("none")),
        Member("pose", JStr("studio product angle"))
      ]))
    ])

  const ClayEnvironment: Json :=
    JObj([
      Member("background", JStr("transparent")),
      Member("lighting", JObj([
        Member("type", JStr("soft studio")),
        Member("direction", JStr("front")),
        Member("quality", JStr("diffused with gentle highlights on the dark surface"))
      ]))
    ])

  const ClayStyle: Json :=
    JObj([
      Member("artistic", JStr("photorealistic 3D render")),
      Member("camera", JObj([
        Member("angle", JStr("eye_level")),
        Member("lens", JStr("normal")),
        Member("aperture", JStr("shallow_depth_of_field"))
      ])),
      Member("mood", JStr("minimalistic and clean"))
    ])

  const ClayTechnical: Json :=
    JObj([
      Member("resolution", JStr("high")),
      Member("aspect_ratio", JStr("1:1")),
      Member("quality", JStr("maximum"))
    ])

  const ClayConstraints: Json :=
    JObj([
      Member("avoid", JArr([
        JStr("colors besides the dark clay tone"),
        JStr("textures"),
        JStr("metallic reflections"),
        JStr("cartoon look")
      ])),
      Member("ensure", JArr([JStr("clean clay look"), JStr("object silhouette clear and readable")]))
    ])

  const ClayOutputSpecs: Json :=
    JObj([
      Member("file_type", JStr("high_resolution_image")),
      Member("transparent_background", JBool(true))
    ])

  function PhotoRealismTemplate(subject: string): (r: Json)
    ensures Get(r, ["subject", "type"]) == Some(JStr(subject))
  {
    var t := JObj(PhotoLead + [Member("subject", PhotoSubject(subject))] + PhotoTrail);
    GetAmong(PhotoLead, "subject", PhotoSubject(subject), PhotoTrail, ["type"]);
    assert ["subject"] + ["type"] == ["subject", "type"];
    t
  }

  /** The members before `subject`, in the order the source writes them. */
  const PhotoLead: seq<Member> :=
    [
      Member("scene", PhotoScene)
    ]

  /** The members after `subject`, in the order the source writes them. */
  const PhotoTrail: seq<Member> :=
    [
      Member("style", PhotoStyle),
      Member("camera", PhotoCamera),
      Member("lighting", PhotoLighting),
      Member("shadow", PhotoShadow),
      Member("composition", PhotoComposition),
      Member("text_rules", PhotoTextRules),
      Member("output", PhotoOutput)
    ]

  /** The `subject` member of the template, where the caller's subject goes. */
  function PhotoSubject(subject: string): (r: Json)
    ensures Get(r, ["type"]) == Some(JStr(subject))
  {
    var t := JObj([
      Member("type", JStr(subject)),
      Member("description", PhotoSubjectDescription),
      Member("surface_integrity", JStr("clean")),
      Member("edges", JStr("sharp"))
    ]);
    GetUnder(t.members, 0, []);
    t
  }

  const PhotoSubjectDescription: Json :=
    JArr([JStr("hyperrealistic"), JStr("isolated"), JStr("centered"), JStr("fully visible"), JStr("never cropped")])

  const PhotoScene: Json :=
    JObj([
      Member("type", JStr("product_studio")),
      Member("environment", JStr("neutral")),
      Member("background", JObj([
        Member("type", JStr("transparent")),
        Member("color", JNull),
        Member("alpha", JNum(0, 0)),
        Member("note", JStr("canvas is transparent; object lighting and shadows are baked into pixels"))
      ]))
    ])

  const PhotoStyle: Json :=
    JObj([
      Member("category", JStr("photorealistic_product")),
      Member("rendering", JStr("high_fidelity")),
      Member("material_accuracy", JStr("high")),
      Member("no_stylization", JBool(true))
    ])

  const PhotoCamera: Json :=
    JObj([
      Member("angle", JStr("front_three_quarter")),
      Member("position", JStr("fixed")),
      Member("distance", JStr("consistent")),
      Member("lens_effects", JObj([
        Member("distortion", JStr("none")),
        Member("depth_of_field", JStr("minimal"))
      ]))
    ])

  const PhotoLighting: Json :=
    JObj([
      Member("setup", JStr("studio_softbox")),
      Member("key_light", JObj([
        Member("position", JStr("top_front_right")),
        Member("intensity", JStr("medium")),
        Member("diffusion", JStr("high"))
      ])),
      Member("fill_light", JObj([
        Member("position", JStr("front")),
        Member("intensity", JStr("low"))
      ])),
      Member("rim_light", JObj([
        Member("enabled", JBool(false))
      ]))
    ])

  const PhotoShadow: Json :=
    JObj([
      Member("enabled", JBool(true)),
      Member("type", JStr("soft_contact_shadow")),
      Member("direction", JStr("left_back")),
      Member("length", JStr("short")),
      Member("opacity", JNum(2, 1)),
      Member("note", JStr("shadow should remain visible on transparent background"))
    ])

  const PhotoComposition: Json :=
    JObj([
      Member("layout", JStr("single_object")),
      Member("alignment", JStr("center")),
      Member("surrounding_elements", JStr("none")),
      Member("safe_padding_ratio", JNum(15, 2))
    ])

  const PhotoTextRules: Json :=
    JObj([
      Member("allowed", JBool(true)),
      Member("constraint", JStr("only_if_physically_part_of_object")),
      Member("external_text", JBool(false)),
      Member("labels_or_overlays", JBool(false))
    ])

  const PhotoOutput: Json :=
    JObj([
      Member("format", JStr("png")),
      Member("transparent_background", JBool(true)),
      Member("recommended_resolution", JStr("2048x2048")),
      Member("color_profile", JStr("sRGB"))
    ])

  function IsometricFlatTemplate(subject: string): (r: Json)
    ensures Get(r, ["object"]) == Some(JStr(subject))
  {
    var t := JObj([
      Member("object", JStr(subject)),
      Member("task_type", JStr("generation")),
      Member("priority", IsometricPriority),
      Member("style", IsometricStyle),
      Member("subject", IsometricSubject),
      Member("lighting", IsometricLighting),
      Member("environment", IsometricEnvironment),
      Member("technical", IsometricTechnical),
      Member("constraints", IsometricConstraints),
      Member("output_specs", IsometricOutputSpecs)
    ]);
    GetUnder(t.members, 0, []);
    t
  }

  const IsometricPriority: Json :=
    JObj([
      Member("primary", JStr("create a clean, modern, isometric icon of the object using flat geometric surfaces")),
      Member("secondary", JStr("use only white and dark blue shades with minimal shading"))
    ])

  const IsometricStyle: Json :=
    JObj([
      Member("type", JStr("isometric_flat")),
      Member("characteristics", JObj([
        Member("outline", JStr("none")),
        Member("shading", JStr("minimal, soft gradients only where necessary")),
        Member("palette", JStr("white + shades of dark blue")),
        Member("surface", JStr("clean matte surfaces (no texture)")),
        Member("edge_behavior", JStr("hard geometric edges, no rounded shapes")),
        Member("render_feel", JStr("flat 3D icon, not cute, not diorama-like")),
        Member("scene_depth", JStr("shallow isometric depth, no layered terrain"))
      ])),
      Member("color_palette", JObj([
        Member("white", JStr("#FFFFFF")),
        Member("blue_dark", JStr("#000F47")),
        Member("blue_mid", JStr("#163A78")),
        Member("blue_light", JStr("#DCE7FF")),
        Member("background", JStr("transparent"))
      ]))
    ])

  const IsometricSubject: Json :=
    JObj([
      Member("description", JStr("the object rendered as a sharp geometric isometric icon made of white and dark-blue surfaces")),
      Member("attributes", JObj([
        Member("pose", JStr("isometric 30\U{B0} angle")),
        Member("form_style", JStr("clean geometry, low detail, faceted surfaces")),
        Member("materials", JStr("matte white and matte dark-blue planes")),
        Member("integration", JStr("no platform, no base, the object stands alone"))
      ]))
    ])

  const IsometricLighting: Json :=
    JObj([
      Member("type", JStr("soft_directional")),
      Member("direction", JStr("upper-left")),
      Member("quality", JStr("minimalistic, clear edge contrast")),
      Member("shadows", JStr("very soft isometric shadow under object"))
    ])

  const IsometricEnvironment: Json :=
    JObj([
      Member("background", JStr("transparent")),
      Member("atmosphere", JStr("bright, clean, minimal"))
    ])

  const IsometricTechnical: Json :=
    JObj([
      Member("resolution", JStr("1024x1024")),
      Member("aspect_ratio", JStr("1:1")),
      Member("quality", JStr("maximum"))
    ])

  const IsometricConstraints: Json :=
    JObj([
      Member("avoid", JArr([
        JStr("cute or rounded stylization"),
        JStr("photorealism"),
        JStr("soft organic shapes"),
        JStr("textures, wood, stone, fabric"),
        JStr("diorama platforms or floating islands"),
        JStr("multi-layer terrain"),
        JStr("outlines")
      ])),
      Member("ensure", JArr([
        JStr("clean isometric geometry"),
        JStr("white + dark-blue color scheme only"),
        JStr("flat 3D surfaces with sharp edges"),
        JStr("minimal shading"),
        JStr("modern corporate look"),
        JStr("transparent background")
      ]))
    ])

  const IsometricOutputSpecs: Json :=
    JObj([
      Member("file_type", JStr("high_resolution_image")),
      Member("transparent_background", JBool(true))
    ])

}
