/** The two deployments of the service: the long-running local server
    (backend/src/index.ts) and the serverless function (api/index.ts). */
module Deployment {
  datatype Variant = LocalServer | Serverless
}
