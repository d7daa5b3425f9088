/*
 * The fragment shader that WaterMaterial installs in `onBeforeCompile`
 * (web/src/routes/WaterMaterial.ts), as text: the fixed GLSL of
 * `#generateFragmentShader` with the point-light section of
 * `#generatePointLighting` and the directional-light section of
 * `#generateDirectionalLighting` spliced in before the displacement code.
 * Every literal below is the source's template text character for
 * character; each `${i}` hole is the place where a Piece ends.
 *
 * Long literals are written as concatenations of short chunks, often
 * mid-token (`"0." + "375"`). The text is unchanged; short chunks keep
 * the verifier's evaluation of the literals cheap.
 */
module WaterMaterial {
  import opened Text
  import opened Unrolling

  /** The template literal that `#generatePointLighting` appends once per point light. */
  const PointLighting: Template := Template(
    [
      Ident("\n        " + PointShadowMarker, "pointShadow"),
      Bare(" = " + "pointLightShadows" + "["),
      Ident("];\n\n        " + "float ", "pointShadowIntensity"),
      Bare(" = " + "getPointShadow(" + "\n            " + "pointShadowMap["),
      Ident("], ", "pointShadow"),
      Ident(".shadowMapSize, ", "pointShadow"),
      Ident(".shadowIntensity" + ", ", "pointShadow"),
      Ident(".shadowBias," + "\n            ", "pointShadow"),
      Bare(".shadowRadius, " + "vPointShadowCoord" + "["),
      Ident("],\n            ", "pointShadow"),
      Ident("." + "shadowCameraNear" + ", ", "pointShadow"),
      Ident(".shadowCameraFar" + ");\n\n        vec3" + " ", "pointLightDirection"),
      Bare(" =\n            " + "pointLights["),
      Ident("].position -" + "\n            " + "vec3(-" + "vViewPosition.x," + " vViewPosition.y" + ", vViewPosition." + "z);\n        " + "float ", "pointLightDistance"),
      Ident(" =\n            " + "sqrt(dot(", "pointLightDirection"),
      Ident(", ", "pointLightDirection"),
      Ident("));\n\n        " + "float ", "NdotP"),
      Ident(" = dot(vNormal, " + "normalize(", "pointLightDirection"),
      Ident("));\n        " + "float ", "pointLightIntensity"),
      Ident(" = max(-", "NdotP"),
      Ident(" + ditherOffset," + " 0.0);\n        " + "float ", "pLevel"),
      Ident(" = floor(", "pointLightIntensity"),
      Ident(" * levels);" + "\n        ", "pointLightIntensity"),
      Ident(" = ", "pLevel"),
      Bare(" / levels;" + "\n\n        " + "pointLight += " + "pointLights["),
      Ident("].color * ", "pointLightIntensity"),
      Ident(" /" + "\n                      " + "pow(", "pointLightDistance")
    ],
    ", 2.0);\n      ")

  /** The template literal that `#generateDirectionalLighting` appends once per directional light. */
  const DirectionalLighting: Template := Template(
    [
      Ident("\n        " + DirectionalShadowMarker, "directionalShadow"),
      Bare(" = " + "directionalLightShadows" + "["),
      Ident("];\n\n        " + "float ", "directionalShadowIntensity"),
      Bare(" =\n            " + "getShadow(" + "directionalShadowMap" + "["),
      Ident("], ", "directionalShadow"),
      Ident(".shadowMapSize, ", "directionalShadow"),
      Ident(".shadowIntensity" + "," + "\n                      ", "directionalShadow"),
      Ident(".shadowBias, ", "directionalShadow"),
      Bare(".shadowRadius," + "\n                      " + "vDirectionalShadowCoord" + "["),
      Ident("]);\n\n        " + "float ", "NdotD"),
      Bare(" = dot(vNormal, " + "directionalLights" + "["),
      Ident("].direction);" + "\n        float ", "directionalLightIntensity"),
      Ident(" = max(-", "NdotD"),
      Ident(" + ditherOffset," + " 0.0);\n        " + "float ", "directionalLevel"),
      Ident(" = floor(", "directionalLightIntensity"),
      Ident(" * levels);" + "\n        ", "directionalLightIntensity"),
      Ident(" = ", "directionalLevel"),
      Bare(" / levels;" + "\n\n        " + "directionalLight" + " += " + "directionalLights" + "["),
      Ident("].color * ", "directionalLightIntensity")
    ],
    ";\n      ")

  /** The fixed text of `#generateFragmentShader` in front of the point-light section. */
  const Prefix: string :=
    "\n" +
    "      #include <" + "common>\n" +
    "      #include <" + "lights_pars_begin" + ">\n" +
    "      #include <" + "packing>\n" +
    "      #include <" + "shadowmap_pars_fragment" + ">\n" +
    "      #include <" + "shadowmask_pars_fragment" + ">\n" +
    "\n" +
    "      uniform " + "sampler2D " + "tReflectorDiffuseDepthless" + ";\n" +
    "      uniform " + "sampler2D " + "tReflectorDepthDepthless" + ";\n" +
    "      uniform " + "sampler2D " + "tReflectorNormalDepthless" + ";\n" +
    "      uniform " + "sampler2D " + "tReflectorDiffuse" + ";\n" +
    "      uniform " + "sampler2D " + "tReflectorDepth;" + "\n" +
    "\n" +
    "      uniform " + "sampler2D " + "tDiffuse;\n" +
    "      uniform " + "sampler2D tDepth" + ";\n" +
    "\n" +
    "      uniform " + "sampler2D " + "tDisplacement;\n" +
    "\n" +
    "      uniform " + "float uNear;\n" +
    "      uniform " + "float uFar;\n" +
    "      uniform " + "float uTime;\n" +
    "      uniform " + "float " + "uDisplacementAmount" + ";\n" +
    "\n" +
    "      uniform " + "mat4 " + "uInverseViewMatrix" + ";\n" +
    "      uniform " + "vec3 " + "uDirectionalLight" + ";\n" +
    "\n" +
    "      uniform " + "vec4 uResolution" + ";\n" +
    "\n" +
    "      varying " + "vec2 vUv;\n" +
    "      varying " + "vec4 vTextureUV;" + "\n" +
    "      varying " + "vec3 vNormal;\n" +
    "      varying " + "vec3 vViewDir;\n" +
    "      varying " + "vec3 " + "vViewPosition;\n" +
    "\n" +
    "      const " + "float levels = 3" + ".0;\n" +
    "      const " + "float " + "ditheringLevels " + "= 1.0 / 10.0;\n" +
    "\n" +
    "      const " + "float " + "ditherMatrix[16]" + " =\n" +
    "          float[" + "](0.0, 0.5, 0." + "125, 0.625, 0.75" + ", 0.25, 0.875, 0" + ".375, 0.1875, 0." + "6875,\n" +
    "                  " + "0.0625, 0.5625, " + "0.9375, 0.4375, " + "0.8125, 0.3125);" + "\n" +
    "\n" +
    "      float " + "getDitherValue(" + "ivec2 pixelCoord" + ") {\n" +
    "        int " + "index = (" + "pixelCoord.x % 4" + ") + (pixelCoord." + "y % 4) * 4;\n" +
    "        return " + "ditherMatrix[" + "index] - 0.5; \n" +
    "      }\n" +
    "\n" +
    "      float " + "linearize(float " + "depth) {\n" +
    "        return " + "uNear * uFar / (" + "uFar + depth * (" + "uNear - uFar));\n" +
    "      }\n" +
    "\n" +
    "      void main(" + ") {\n" +
    "        ivec2 " + "pixelCoord = " + "ivec2(" + "gl_FragCoord.xy)" + ";\n" +
    "        float " + "ditherOffset =\n" +
    "            " + "getDitherValue(" + "pixelCoord) * " + "ditheringLevels;" + " \n" +
    "\n" +
    "        vec3 " + "pointLight = " + "vec3(0.0, 0.0, 0" + ".0);\n" +
    "        vec3 " + "directionalLight" + " = vec3(0.0, 0.0" + ", 0.0);\n" +
    "      \n" +
    "        "

  /** The fixed text between the point-light and the directional-light section. */
  const Mid: string := "\n        "

  /** The fixed text after the directional-light section, up to the closing backtick. */
  const Suffix: string :=
    "\n" + "\n" + (
      "        vec2 " + "screenUV = " + "gl_FragCoord.xy " + "/ uResolution.xy" + ";\n" +
      "\n" +
      "        // " + "Displacement\n" +
      "        vec2 " + "displacement = " + "texture2D(" + "tDisplacement, " + "vUv + uTime / 16" + ".0).rg;\n" +
      "        " + "displacement = (" + "(displacement * " + "2.0) - 1.0) * " + "uDisplacementAmount" + ";\n" +
      "\n" +
      "        // Foam " + "depth\n" +
      "        float " + "zDepth = " + "linearize(" + "texture2D(tDepth" + ", screenUV).r);\n" +
      "        float " + "zPos = linearize" + "(gl_FragCoord.z)" + ";\n" +
      "        float " + "zDiff = clamp(" + "zDepth - zPos, 0" + ".0, 1.0);\n" +
      "        zDiff +=" + " displacement.x;" + "\n" +
      "\n" +
      "        // " + "Reflection\n" +
      "        vec4 " + "textureUV = " + "vTextureUV;\n" +
      "        " + "textureUV.xy = " + "vTextureUV.xy + " + "displacement.xy " + "/ 30.0 * " + "vTextureUV.w;\n" +
      "\n" +
      "        float " + "centerDepth = " + "texture2D(" + "tReflectorDepthDepthless" + ", textureUV.xy /" + " textureUV.w).r;" + "\n" +
      "        vec3 " + "centerNormal =\n" +
      "            " + "texture2D(" + "tReflectorNormalDepthless" + ", textureUV.xy /" + " textureUV.w)." + "xyz * 2.0 - 1.0;" + "\n" +
      "\n" +
      "        vec2 uvs" + "[4];\n" +
      "        uvs[0] =" + " textureUV.xy / " + "textureUV.w + " + "vec2(0.0, " + "uResolution.w);\n" +
      "        uvs[1] =" + " textureUV.xy / " + "textureUV.w + " + "vec2(0.0, -" + "uResolution.w);\n" +
      "        uvs[2] =" + " textureUV.xy / " + "textureUV.w + " + "vec2(uResolution" + ".z, 0.0);\n" +
      "        uvs[3] =" + " textureUV.xy / " + "textureUV.w + " + "vec2(-" + "uResolution.z, 0" + ".0);\n" +
      "\n" +
      "        float " + "depthDiff = 0.0;" + "\n" +
      "        float " + "nearestDepth = " + "centerDepth;\n" +
      "        vec2 " + "nearestUV = " + "textureUV.xy / " + "textureUV.w;\n" +
      "\n" +
      "        float " + "normalSum = 0.0;" + "\n" +
      "\n" +
      "        for (int" + " i = 0; i < 4; i" + "++) {\n" +
      "          float " + "offsetDepth = " + "texture2D(" + "tReflectorDepthDepthless" + ", uvs[i]).r;\n" +
      "          " + "depthDiff += " + "centerDepth - " + "offsetDepth;\n" +
      "\n" +
      "          if (" + "offsetDepth < " + "nearestDepth) {\n" +
      "            " + "nearestDepth = " + "offsetDepth;\n" +
      "            " + "nearestUV = uvs[" + "i];\n" +
      "          }\n" +
      "\n" +
      "          vec3 " + "offsetNormal = " + "texture2D(" + "tReflectorNormalDepthless" + ", uvs[i]).xyz * " + "2.0 - 1.0;\n" +
      "          vec3 " + "normalDiff = " + "centerNormal - " + "offsetNormal;\n" +
      "\n" +
      "          vec3 " + "normalEdgeBias =" + " vec3(1.0, 1.0, " + "1.0);\n" +
      "          float " + "normalBiasDiff =" + " dot(normalDiff," + " normalEdgeBias)" + ";\n" +
      "          float " + "normalIndicator " + "= smoothstep(-0." + "01, 0.01, " + "normalBiasDiff);" + "\n" +
      "\n" +
      "          " + "normalSum += dot" + "(normalDiff, " + "normalDiff) * " + "normalIndicator;" + "\n" +
      "        }\n" +
      "\n" +
      "        float " + "depthThreshold =" + " 0.05;\n" +
      "        float " + "depthEdge = step" + "(depthThreshold," + " depthDiff);\n" +
      "\n" +
      "        float " + "darkenAmount = 0" + ".3;\n" +
      "        float " + "lightenAmount = " + "1.5;\n" +
      "\n" +
      "        float " + "normalThreshold " + "= 0.6;\n" +
      "        float " + "indicator = sqrt" + "(normalSum);\n" +
      "        float " + "normalEdge = " + "step(" + "normalThreshold," + " indicator);\n" +
      "\n" +
      "        vec3 " + "texel = " + "texture2D(" + "tReflectorDiffuseDepthless" + ", textureUV.xy /" + " textureUV.w)." + "rgb;\n" +
      "        vec3 " + "edgeTexel = " + "texture2D(" + "tReflectorDiffuseDepthless" + ", nearestUV).rgb" + ";\n" +
      "\n" +
      "        // TODO:" + " Fix light edge " + "outlining\n" +
      "        mat3 " + "viewToWorldNormalMat" + " =\n" +
      "            mat3" + "(" + "uInverseViewMatrix" + "[0].xyz, " + "uInverseViewMatrix" + "[1].xyz,\n" +
      "                " + "uInverseViewMatrix" + "[2].xyz);\n" +
      "        float ld" + " =\n" +
      "            dot(" + "(" + "viewToWorldNormalMat" + " * centerNormal)" + ", -normalize(" + "uDirectionalLight" + "));\n" +
      "\n" +
      "        vec3 " + "reflectionColor;" + "\n" +
      "        if ((" + "texture2D(" + "tReflectorDepth," + " nearestUV).r + " + "0.01) < " + "nearestDepth) {\n" +
      "          " + "reflectionColor " + "= texture2D(" + "tReflectorDiffuse" + ", nearestUV).rgb" + ";\n" +
      "        } else " + "if (depthEdge > " + "0.0) {\n" +
      "          " + "reflectionColor " + "= mix(texel, " + "edgeTexel * " + "darkenAmount, " + "depthEdge);\n" +
      "        } else {" + "\n" +
      "          " + "reflectionColor " + "= mix(\n" +
      "              " + "texel, texel * (" + "ld > 0.0 ? " + "darkenAmount : " + "lightenAmount), " + "normalEdge);\n" +
      "        }\n" +
      "\n" +
      "        vec3 " + "waterColor =\n" +
      "            mix(" + "texture2D(" + "tDiffuse, " + "screenUV + " + "displacement / " + "16.0).rgb,\n" +
      "                " + "vec3(0.0, 0.0, 1" + ".0), 0.5);\n" +
      "\n" +
      "        vec3 " + "foamColor = vec3" + "(1.0, 1.0, 1.0);" + "\n" +
      "\n" +
      "        vec3 " + "color = mix(" + "waterColor, " + "reflectionColor," + " 0.4);\n" +
      "        color = " + "mix(foamColor, " + "color, step(0.25" + ", zDiff - " + "ditherOffset));\n" +
      "\n" +
      "        " + "gl_FragColor = " + "vec4(\n" +
      "            " + "color * (" + "ambientLightColor" + " + " + "directionalLight" + " + pointLight),\n" +
      "            1.0)" + ";\n" +
      "      }\n" +
      "    ")

  const Water: Material := Material(Frame(Prefix, Mid, Suffix), PointLighting, DirectionalLighting)

  /** The literals meet what the theorems about materials in Unrolling ask of them. */
  lemma WaterWellFormed()
    ensures WellFormed(Water)
  {
    HeadsNameTheirLightType();
    SeamsStartLines();
    WellFormedAt(Water, 9, 9, 9, 1);
  }

  lemma HeadsNameTheirLightType()
    ensures OccursAt(Head(PointLighting), PointShadowMarker, 9)
    ensures OccursAt(Head(DirectionalLighting), DirectionalShadowMarker, 9)
  {
    OccursBetween("\n        ", PointShadowMarker, "pointShadow");
    OccursBetween("\n        ", DirectionalShadowMarker, "directionalShadow");
  }

  lemma SeamsStartLines()
    ensures Opens(PointLighting) && Opens(DirectionalLighting) && FrameSeams(Frame(Prefix, Mid, Suffix))
    ensures (Mid + "\n")[9] != Head(PointLighting)[9]
    ensures Suffix[1] != Head(DirectionalLighting)[1]
  {
    SuffixOpensWithBlankLine();
    HeadsStartWith();
  }

  lemma SuffixOpensWithBlankLine()
    ensures |Suffix| >= 2 && Suffix[0] == '\n' && Suffix[1] == '\n'
  {
  }

  lemma HeadsStartWith()
    ensures Head(PointLighting)[..9] == "\n        "
    ensures Head(DirectionalLighting)[..9] == "\n        "
  {
  }

  /** `onBeforeCompile` of WaterMaterial. */
  method OnBeforeCompile(shader: ProgramParameters)
    modifies shader`fragmentShader
    ensures shader.fragmentShader == Shader(Water, shader.numPointLights, shader.numDirLights)
    ensures shader.numPointLights == old(shader.numPointLights) && shader.numDirLights == old(shader.numDirLights)
  {
    Unrolling.OnBeforeCompile(Water, shader);
  }
}
