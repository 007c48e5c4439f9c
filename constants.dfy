/** The static configuration of APIConstants.swift. */
module APIConstants {
  const BaseURL := "https://cloud.ooto-ai.com/api/v1.0"
  const IdentifyEndpoint := "/identify"
  const AddTemplateEndpoint := "/add"
  const DeleteEndpoint := "/delete"
  const AppId := "APP-ID"
  const AppKey := "APP-KEY"
}
