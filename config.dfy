/**
 * The operator's process-wide options. The Go package reads them once into a
 * package global; here they are an immutable value passed to every operation
 * that consults them.
 */
module Config {

  datatype Options = Options(
    mysqlImage: string,
    mysqlImageTag: string,
    titaniumImage: string,
    metricsExporterImage: string,
    imagePullPolicy: string,
    orchestratorUri: string,
    orchestratorTopologySecretName: string)
}
