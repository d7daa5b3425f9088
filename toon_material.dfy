/*
 * The fragment shader that CustomToonMaterial installs in `onBeforeCompile`
 * (web/src/routes/CustomToonMaterial.ts), as text: the fixed GLSL of
 * `#generateFragmentShader` with the point-light section of
 * `#generatePointLighting` and the directional-light section of
 * `#generateDirectionalLighting` spliced in. Every literal below is the
 * source's template text character for character; each `${i}` hole is the
 * place where a Piece ends.
 *
 * Long literals are written as concatenations of short chunks, often
 * mid-token (`"0." + "375"`). The text is unchanged; short chunks keep
 * the verifier's evaluation of the literals cheap.
 */
module ToonMaterial {
  import opened Text
  import opened Unrolling

  /** The template literal that `#generatePointLighting` appends once per point light. */
  const PointLighting: Template := Template(
    [
      Ident("\n\t\t\t" + PointShadowMarker, "pointShadow"),
      Bare(" = " + "pointLightShadows" + "["),
      Ident("];\n\t\t\t\n\t\t\tfloat ", "pointShadowIntensity"),
      Bare(" = " + "getPointShadow(" + "\n\t\t\t\t\t" + "pointShadowMap["),
      Ident("], ", "pointShadow"),
      Ident(".shadowMapSize, ", "pointShadow"),
      Ident(".shadowIntensity" + ", ", "pointShadow"),
      Ident(".shadowBias," + "\n\t\t\t\t\t", "pointShadow"),
      Bare(".shadowRadius, " + "vPointShadowCoord" + "["),
      Ident("],\n\t\t\t\t\t", "pointShadow"),
      Ident("." + "shadowCameraNear" + ", ", "pointShadow"),
      Ident(".shadowCameraFar" + ");\n\n\t\t\tvec3 ", "pointLightDirection"),
      Bare(" = pointLights["),
      Ident("].position - " + "vViewPosition;" + "\n\t\t\t\tfloat ", "pointLightDistance"),
      Ident(" =\n\t\t\t\t\tsqrt(dot" + "(", "pointLightDirection"),
      Ident(", ", "pointLightDirection"),
      Ident("));\n\n\t\t\tfloat ", "NdotP"),
      Ident(" = dot(vNormal, " + "normalize(", "pointLightDirection"),
      Ident("));\n\t\t\tfloat ", "pointLightIntensity"),
      Ident(" = max(", "NdotP"),
      Ident(" + ditherOffset," + " 0.0);\n\t\t\tfloat ", "pLevel"),
      Ident(" = floor(", "pointLightIntensity"),
      Ident(" * levels);\n\t\t\t", "pointLightIntensity"),
      Ident(" = ", "pLevel"),
      Bare(" / levels;\n\n\t\t\t" + "pointLight += " + "pointLights["),
      Ident("].color * ", "pointLightIntensity"),
      Ident(" *\n\t\t\t\t\t\t\t\t\t\t", "pointShadowIntensity"),
      Ident(" / pow(", "pointLightDistance")
    ],
    ", 2.0);\n\t\t")

  /** The template literal that `#generateDirectionalLighting` appends once per directional light. */
  const DirectionalLighting: Template := Template(
    [
      Ident("\n\t\t\t" + DirectionalShadowMarker, "directionalShadow"),
      Bare(" = " + "directionalLightShadows" + "["),
      Ident("];\n\n\t\t\tfloat ", "directionalShadowIntensity"),
      Bare(" =\n\t\t\t\t\t" + "getShadow(" + "directionalShadowMap" + "["),
      Ident("], ", "directionalShadow"),
      Ident(".shadowMapSize, ", "directionalShadow"),
      Ident(".shadowIntensity" + ",\n\t\t\t\t\t\t\t\t\t\t", "directionalShadow"),
      Ident(".shadowBias, ", "directionalShadow"),
      Bare(".shadowRadius," + "\n\t\t\t\t\t\t\t\t\t\t" + "vDirectionalShadowCoord" + "["),
      Ident("]);\n\t\t\t\t\n\t\t\t" + "float ", "NdotD"),
      Bare(" = dot(vNormal, " + "directionalLights" + "["),
      Ident("].direction);" + "\n\n\t\t\tfloat ", "directionalLightIntensity"),
      Ident(" = max(", "NdotD"),
      Ident(" + ditherOffset," + " 0.0);\n\t\t\tfloat ", "directionalLevel"),
      Ident(" = floor(", "directionalLightIntensity"),
      Ident(" * levels);\n\t\t\t", "directionalLightIntensity"),
      Ident(" = ", "directionalLevel"),
      Bare(" / levels;\n\n\t\t\t" + "directionalLight" + " += " + "directionalLights" + "["),
      Ident("].color *" + "\n\t\t\t\t\t\t\t\t\t\t\t\t\t", "directionalLightIntensity"),
      Ident(" *\n\t\t\t\t\t\t\t\t\t\t\t\t\t", "directionalShadowIntensity"),
      Ident(";\n\n\t\t\t// " + "Specular " + "lighting\n\t\t\tvec3" + " ", "halfVector"),
      Bare(" = normalize(" + "directionalLights" + "["),
      Ident("].direction * 1." + "5 + vViewDir);" + "\n\t\t\tfloat ", "NdotH"),
      Ident(" = dot(vNormal, ", "halfVector"),
      Ident(");\n\n\t\t\tfloat ", "specularIntensity"),
      Ident(" = pow(", "NdotH"),
      Ident(", 1000.0 / " + "uGlossiness);" + "\n\t\t\tfloat ", "specularIntensitySmooth"),
      Ident(" = smoothstep(0." + "05, 0.1, ", "specularIntensity"),
      Ident(");\n\n\t\t\tspecular " + "+= ", "specularIntensitySmooth"),
      Bare(" * " + "directionalLights" + "["),
      Ident("].color;\n\n\t\t\t// " + "Rim lighting\n\t\t\t" + "float ", "rimDot"),
      Ident(" = 1.0 - dot(" + "vViewDir, " + "vNormal);\n\t\t\t" + "float ", "rimAmount"),
      Ident(" = 0.7;\n\n\t\t\t" + "float ", "rimThreshold"),
      Ident(" = 0.7;\n\t\t\tfloat" + " ", "rimIntensity"),
      Ident(" = ", "rimDot"),
      Ident(" * pow(", "NdotD"),
      Ident(", ", "rimThreshold"),
      Ident(");\n\t\t\t", "rimIntensity"),
      Ident(" = smoothstep(", "rimAmount"),
      Ident(" - 0.01, ", "rimAmount"),
      Ident(" + 0.01, ", "rimIntensity"),
      Ident(");\n\n\t\t\trim += ", "rimIntensity"),
      Bare(" * " + "directionalLights" + "[")
    ],
    "].color;\n\t\t")

  /** The fixed text of `#generateFragmentShader` in front of the point-light section. */
  const Prefix: string :=
    "\n" +
    "      #include <" + "common>\n" +
    "      #include <" + "lights_pars_begin" + ">\n" +
    "      #include <" + "packing>\n" +
    "      #include <" + "shadowmap_pars_fragment" + ">\n" +
    "      #include <" + "shadowmask_pars_fragment" + ">\n" +
    "\n" +
    "      uniform " + "float " + "uGlossiness;\n" +
    "      uniform " + "vec3 uColor;\n" +
    "\n" +
    "      varying " + "vec2 vUv;\n" +
    "      varying " + "vec3 vNormal;\n" +
    "      varying " + "vec3 vViewDir;\n" +
    "      varying " + "vec3 " + "vViewPosition;\n" +
    "\n" +
    "      const " + "float levels = 3" + ".0;\n" +
    "      const " + "float " + "ditheringLevels " + "= 1.0 / 10.0;\n" +
    "\n" +
    "      const " + "float " + "ditherMatrix[16]" + " = float[](\n" +
    "          0.0,  " + "0.5,  0.125, 0." + "625,\n" +
    "          0.75, " + "0.25, 0.875, 0." + "375,\n" +
    "          0.1875" + ", 0.6875, 0.0625" + ", 0.5625,\n" +
    "          0.9375" + ", 0.4375, 0.8125" + ", 0.3125\n" +
    "      );\n" +
    "\n" +
    "      float " + "getDitherValue(" + "ivec2 pixelCoord" + ") {\n" +
    "          int " + "index = (" + "pixelCoord.x % 4" + ") + (pixelCoord." + "y % 4) * 4;\n" +
    "          return" + " ditherMatrix[" + "index] - 0.5;\n" +
    "      }\n" +
    "\n" +
    "      void main(" + ") {\n" +
    "        ivec2 " + "pixelCoord = " + "ivec2(" + "gl_FragCoord.xy)" + ";\n" +
    "        float " + "ditherOffset = " + "getDitherValue(" + "pixelCoord) * " + "ditheringLevels;" + "\n" +
    "\n" +
    "        vec3 " + "pointLight = " + "vec3(0.0, 0.0, 0" + ".0);\n" +
    "        vec3 " + "directionalLight" + " = vec3(0.0, 0.0" + ", 0.0);\n" +
    "        vec3 " + "specular = vec3(" + "0.0, 0.0, 0.0);\n" +
    "        vec3 rim" + " = vec3(0.0, 0.0" + ", 0.0);\n" +
    "\n" +
    "        "

  /** The fixed text between the point-light and the directional-light section. */
  const Mid: string := "\n        "

  /** The fixed text after the directional-light section, up to the closing backtick. */
  const Suffix: string :=
    "\n" + "\n" + (
      "        " + "gl_FragColor = " + "vec4(uColor * (" + "ambientLightColor" + " + " + "directionalLight" + " + pointLight + " + "specular + rim)," + " 1.0);\n" +
      "      }\n" +
      "    ")

  const Toon: Material := Material(Frame(Prefix, Mid, Suffix), PointLighting, DirectionalLighting)

  /** The literals meet what the theorems about materials in Unrolling ask of them. */
  lemma ToonWellFormed()
    ensures WellFormed(Toon)
  {
    HeadsNameTheirLightType();
    SeamsStartLines();
    WellFormedAt(Toon, 4, 4, 1, 1);
  }

  lemma HeadsNameTheirLightType()
    ensures OccursAt(Head(PointLighting), PointShadowMarker, 4)
    ensures OccursAt(Head(DirectionalLighting), DirectionalShadowMarker, 4)
  {
    OccursBetween("\n\t\t\t", PointShadowMarker, "pointShadow");
    OccursBetween("\n\t\t\t", DirectionalShadowMarker, "directionalShadow");
  }

  lemma SeamsStartLines()
    ensures Opens(PointLighting) && Opens(DirectionalLighting) && FrameSeams(Frame(Prefix, Mid, Suffix))
    ensures (Mid + "\n")[1] != Head(PointLighting)[1]
    ensures Suffix[1] != Head(DirectionalLighting)[1]
  {
    SuffixOpensWithBlankLine();
    HeadsStartWith();
  }

  lemma SuffixOpensWithBlankLine()
    ensures |Suffix| >= 2 && Suffix[0] == '\n' && Suffix[1] == '\n'
  {
  }

  lemma HeadsStartWith()
    ensures Head(PointLighting)[..4] == "\n\t\t\t"
    ensures Head(DirectionalLighting)[..4] == "\n\t\t\t"
  {
  }

  /** `onBeforeCompile` of CustomToonMaterial. */
  method OnBeforeCompile(shader: ProgramParameters)
    modifies shader`fragmentShader
    ensures shader.fragmentShader == Shader(Toon, shader.numPointLights, shader.numDirLights)
    ensures shader.numPointLights == old(shader.numPointLights) && shader.numDirLights == old(shader.numDirLights)
  {
    Unrolling.OnBeforeCompile(Toon, shader);
  }
}
