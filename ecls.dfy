/** The decoded `ECLS` message: a `data` array of flat
    records whose every field is text. A field the JSON does not carry decodes
    to the empty string. */
module Ecls {

  /** One element of `data`, with the fields in the order the Go struct
      declares them. */
  datatype EclsRecord = EclsRecord(
    apiKey: string,
    apiMethodName: string,
    bytes: string,
    cacheHit: string,
    clientTransferTime: string,
    connectTime: string,
    endpointName: string,
    httpMethod: string,
    httpStatusCode: string,
    httpVersion: string,
    oauthAccessToken: string,
    packageName: string,
    packageUuid: string,
    planName: string,
    planUuid: string,
    preTransferTime: string,
    qpsThrottleValue: string,
    quotaValue: string,
    referrer: string,
    remoteTotalTime: string,
    requestHostName: string,
    requestId: string,
    requestTime: string,
    requestUuid: string,
    responseString: string,
    serviceDefinitionEndpointUuid: string,
    serviceId: string,
    serviceName: string,
    srcIp: string,
    sslEnabled: string,
    totalRequestExecTime: string,
    trafficManager: string,
    trafficManagerErrorCode: string,
    uri: string,
    userAgent: string)

  /** The `ECLS` message: `{"data": [ <record>, ... ]}`. */
  datatype Ecls = Ecls(data: seq<EclsRecord>)
}
