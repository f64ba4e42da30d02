/** The URI constants the modelled code names. `sbol/constants.py` is not part
    of this model; the values below follow the SBOL 2.3 vocabulary, and no
    proof depends on their particular values. */
module Vocabulary {
  const SbolUri: string := "http://sbols.org/v2"
  const SbolInteraction: string := SbolUri + "#Interaction"
  const SbolTypes: string := SbolUri + "#type"
  const SbolFunctionalComponents: string := SbolUri + "#functionalComponent"
  const SbolParticipations: string := SbolUri + "#participation"
  const SbolMeasurements: string := SbolUri + "#measure"
  const SbolRoleIntegrationMerge: string := SbolUri + "#mergeRoles"
  const SbolRoleIntegrationOverride: string := SbolUri + "#overrideRoles"
  const SboInteraction: string := "http://identifiers.org/biomodels.sbo/SBO:0000231"
  const SoPromoter: string := "http://identifiers.org/so/SO:0000167"
}
